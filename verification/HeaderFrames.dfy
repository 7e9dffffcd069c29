/**
 * A header block on the wire: one HEADERS or PUSH_PROMISE frame and as many CONTINUATION frames as it takes
 * (section 6.10 of RFC 7540).  Frames are packed in the buffers they are in; they are read back byte by byte here,
 * and in whatever pieces they arrive in HeaderReader.
 */
module HeaderFrames {
  import opened Bytes
  import opened FrameHeader
  import opened FramePadding

  // ---- packing

  /** The header of frame number k of n, for a payload of this length. */
  function HeaderOf(h: FrameHd, k: nat, n: nat, length: nat): FrameHd
    requires k < n
  {
    if k == 0 then (if n == 1 then h else h.Clear(END_HEADERS)).(length := length)
    else FrameHd(length, CONTINUATION, if k == n - 1 then END_HEADERS else 0, h.stream)
  }

  predicate Fits(payload: Bytes) {
    |payload| < 0x100_0000
  }

  /** Each buffer with its frame header in front. */
  function FrameOf(h: FrameHd, k: nat, n: nat, payload: Bytes): Bytes
    requires h.Valid() && k < n && Fits(payload)
  {
    PackHd(HeaderOf(h, k, n, |payload|)) + payload
  }

  method PutHeader(bufs: array<Bytes>, k: nat, hd: FrameHd)
    requires k < bufs.Length && hd.Valid()
    modifies bufs
    ensures bufs[..] == old(bufs[..])[k := PackHd(hd) + old(bufs[k])]
  {
    bufs[k] := PackHd(hd) + bufs[k];
  }

  /** `frame_pack_headers_shared`, over the chain of buffers that hold the payload. */
  method PackHeadersShared(bufs: array<Bytes>, h: FrameHd)
    requires bufs.Length > 0 && h.Valid() && forall k | 0 <= k < bufs.Length :: Fits(bufs[k])
    modifies bufs
    ensures forall k | 0 <= k < bufs.Length :: bufs[k] == FrameOf(h, k, bufs.Length, old(bufs[k]))
  {
    var hd := h.(length := |bufs[0]|);
    if bufs.Length > 1 {
      hd := hd.Clear(END_HEADERS);
    }
    EndHeadersSet(h);
    PutHeader(bufs, 0, hd);
    if bufs.Length > 1 {
      hd := hd.(kind := CONTINUATION, flags := 0);
      var k := 1;
      while k < bufs.Length - 1
        invariant 1 <= k <= bufs.Length - 1 && hd.kind == CONTINUATION && hd.flags == 0 && hd.stream == h.stream
        invariant forall j | 0 <= j < k :: bufs[j] == FrameOf(h, j, bufs.Length, old(bufs[j]))
        invariant forall j | k <= j < bufs.Length :: bufs[j] == old(bufs[j])
      {
        hd := hd.(length := |bufs[k]|);
        PutHeader(bufs, k, hd);
        k := k + 1;
      }
      hd := hd.(length := |bufs[k]|, flags := END_HEADERS);
      PutHeader(bufs, k, hd);
    }
  }

  // ---- reading

  /** Where the reading of a header block stands; `left` and `pad` are of the current frame's payload. */
  datatype Phase =
    | Head(got: Bytes)
    | PadLength
    | Fields(left: nat, pad: nat, got: Bytes)
    | Block(left: nat, pad: nat)
    | Cont(got: Bytes)
    | Done
    | Broken

  /** The phase, the first frame's header with the flags seen so far, and what has been read. */
  datatype Reader = Reader(phase: Phase, hd: FrameHd, fields: Bytes, block: Bytes)

  const NO_HD := FrameHd(0, 0, 0, 0)
  const START := Reader(Head([]), NO_HD, [], [])

  /** The fields before the block fragment: a priority, or the promised stream. */
  function FieldLen(hd: FrameHd): nat {
    if hd.kind == PUSH_PROMISE then 4 else if hd.Has(PRIORITY) then 5 else 0
  }

  /** A frame is read; without END_HEADERS a CONTINUATION must follow. */
  function FrameRead(r: Reader): Reader {
    r.(phase := if r.hd.Has(END_HEADERS) then Done else Cont([]))
  }

  function EnterBlock(r: Reader, left: nat, pad: nat): Reader {
    if left == 0 then FrameRead(r) else r.(phase := Block(left, pad))
  }

  function EnterFields(r: Reader, left: nat, pad: nat): Reader {
    if FieldLen(r.hd) == 0 then EnterBlock(r, left, pad) else r.(phase := Fields(left, pad, []))
  }

  /** The first frame, with the checks of the HEADERS and PUSH_PROMISE cases. */
  function EnterFrame(r: Reader, hd: FrameHd, maxFrame: nat): Reader {
    var r1 := r.(hd := hd);
    if hd.length > maxFrame || (hd.kind != HEADERS && hd.kind != PUSH_PROMISE) then r1.(phase := Broken)
    else if hd.Has(PADDED) then r1.(phase := if hd.length < 1 then Broken else PadLength)
    else if hd.length < FieldLen(hd) then r1.(phase := Broken)
    else EnterFields(r1, hd.length, 0)
  }

  function EnterContinuation(r: Reader, hd: FrameHd): Reader {
    if hd.kind != CONTINUATION || hd.stream != r.hd.stream then r.(phase := Broken)
    else EnterBlock(r.(hd := if hd.Has(END_HEADERS) then r.hd.Set(END_HEADERS) else r.hd), hd.length, 0)
  }

  function Step(r: Reader, b: byte, maxFrame: nat): Reader {
    match r.phase
    case Head(got) =>
      if |got| + 1 == HDLEN then EnterFrame(r, UnpackHd(got + [b]), maxFrame) else r.(phase := Head(got + [b]))
    case PadLength =>
      if r.hd.length < 1 || b + FieldLen(r.hd) > r.hd.length - 1 then r.(phase := Broken)
      else EnterFields(r, r.hd.length - 1, b)
    case Fields(left, pad, got) =>
      if left == 0 then r.(phase := Broken)
      else
        var r1 := r.(fields := r.fields + [b]);
        if |got| + 1 == FieldLen(r.hd) then EnterBlock(r1, left - 1, pad)
        else r1.(phase := Fields(left - 1, pad, got + [b]))
    case Block(left, pad) =>
      if left == 0 then r.(phase := Broken)
      else EnterBlock(if left > pad then r.(block := r.block + [b]) else r, left - 1, pad)
    case Cont(got) =>
      if |got| + 1 == HDLEN then EnterContinuation(r, UnpackHd(got + [b])) else r.(phase := Cont(got + [b]))
    case _ => r
  }

  function Run(r: Reader, s: Bytes, maxFrame: nat): Reader
    decreases |s|
  {
    if s == [] then r else Run(Step(r, s[0], maxFrame), s[1..], maxFrame)
  }

  lemma {:induction false} RunConcat(r: Reader, s: Bytes, t: Bytes, maxFrame: nat)
    ensures Run(r, s + t, maxFrame) == Run(Run(r, s, maxFrame), t, maxFrame)
    decreases |s|
  {
    if s == [] {
      assert [] + t == t;
    } else {
      assert (s + t)[0] == s[0] && (s + t)[1..] == s[1..] + t;
      RunConcat(Step(r, s[0], maxFrame), s[1..], t, maxFrame);
    }
  }

  // ---- reading in bulk

  lemma {:induction false} HeadInBulk(r: Reader, s: Bytes, maxFrame: nat)
    requires r.phase.Head? && |r.phase.got| < HDLEN && |r.phase.got| + |s| <= HDLEN
    ensures Run(r, s, maxFrame)
         == if |r.phase.got| + |s| == HDLEN then EnterFrame(r, UnpackHd(r.phase.got + s), maxFrame)
            else r.(phase := Head(r.phase.got + s))
    decreases |s|
  {
    if s == [] {
      assert r.phase.got + s == r.phase.got;
    } else {
      assert s == [s[0]] + s[1..] && r.phase.got + s == (r.phase.got + [s[0]]) + s[1..];
      if |r.phase.got| + 1 < HDLEN {
        HeadInBulk(Step(r, s[0], maxFrame), s[1..], maxFrame);
      } else {
        assert s[1..] == [];
      }
    }
  }

  lemma {:induction false} ContInBulk(r: Reader, s: Bytes, maxFrame: nat)
    requires r.phase.Cont? && |r.phase.got| < HDLEN && |r.phase.got| + |s| <= HDLEN
    ensures Run(r, s, maxFrame)
         == if |r.phase.got| + |s| == HDLEN then EnterContinuation(r, UnpackHd(r.phase.got + s))
            else r.(phase := Cont(r.phase.got + s))
    decreases |s|
  {
    if s == [] {
      assert r.phase.got + s == r.phase.got;
    } else {
      assert s == [s[0]] + s[1..] && r.phase.got + s == (r.phase.got + [s[0]]) + s[1..];
      if |r.phase.got| + 1 < HDLEN {
        ContInBulk(Step(r, s[0], maxFrame), s[1..], maxFrame);
      } else {
        assert s[1..] == [];
      }
    }
  }

  lemma {:induction false} FieldsInBulk(r: Reader, s: Bytes, maxFrame: nat)
    requires r.phase.Fields? && |r.phase.got| < FieldLen(r.hd) && |r.phase.got| + |s| <= FieldLen(r.hd)
    requires |s| <= r.phase.left
    ensures Run(r, s, maxFrame)
         == var r1 := r.(fields := r.fields + s);
            if |r.phase.got| + |s| == FieldLen(r.hd) then EnterBlock(r1, r.phase.left - |s|, r.phase.pad)
            else r1.(phase := Fields(r.phase.left - |s|, r.phase.pad, r.phase.got + s))
    decreases |s|
  {
    if s == [] {
      assert r.phase.got + s == r.phase.got && r.fields + s == r.fields;
    } else {
      assert r.phase.got + s == (r.phase.got + [s[0]]) + s[1..] && r.fields + s == (r.fields + [s[0]]) + s[1..];
      if |r.phase.got| + 1 < FieldLen(r.hd) {
        FieldsInBulk(Step(r, s[0], maxFrame), s[1..], maxFrame);
      } else {
        assert s[1..] == [];
      }
    }
  }

  /** How much of s, with this much of the payload left before it, belongs to the block: `effective_readlen`. */
  function Effective(left: nat, pad: nat, n: nat): (e: nat)
    requires n <= left
    ensures e <= n
  {
    if pad > left - n then (if n < pad - (left - n) then 0 else n - (pad - (left - n))) else n
  }

  lemma {:induction false} BlockInBulk(r: Reader, s: Bytes, maxFrame: nat)
    requires r.phase.Block? && |s| <= r.phase.left && r.phase.left > 0
    ensures Run(r, s, maxFrame)
         == EnterBlock(r.(block := r.block + s[..Effective(r.phase.left, r.phase.pad, |s|)]),
                       r.phase.left - |s|, r.phase.pad)
    decreases |s|
  {
    if s == [] {
      assert r.block + s[..0] == r.block;
    } else {
      var left, pad := r.phase.left, r.phase.pad;
      var r1 := Step(r, s[0], maxFrame);
      var e := Effective(left, pad, |s|);
      if left > pad {
        assert s[..e] == [s[0]] + s[1..][..e - 1];
        assert r.block + s[..e] == (r.block + [s[0]]) + s[1..][..e - 1];
      } else {
        assert e == 0 && r.block + s[..0] == r.block;
      }
      if left > 1 {
        BlockInBulk(r1, s[1..], maxFrame);
      } else {
        assert s[1..] == [] && s[1..][..0] == [];
        assert left > pad ==> (r.block + [s[0]]) + [] == r.block + [s[0]];
      }
    }
  }

  /** The same from the point where the block is entered, which an empty payload ends at once. */
  lemma BlockReads(r: Reader, left: nat, pad: nat, s: Bytes, maxFrame: nat)
    requires |s| <= left
    ensures Run(EnterBlock(r, left, pad), s, maxFrame)
         == EnterBlock(r.(block := r.block + s[..Effective(left, pad, |s|)]), left - |s|, pad)
  {
    if left == 0 {
      assert r.block + s[..0] == r.block;
    } else {
      BlockInBulk(EnterBlock(r, left, pad), s, maxFrame);
    }
  }

  // ---- the round trip

  function Concat(xs: seq<Bytes>): Bytes {
    if xs == [] then [] else xs[0] + Concat(xs[1..])
  }

  /** The frames from number k on. */
  function FramesFrom(h: FrameHd, payloads: seq<Bytes>, k: nat): Bytes
    requires h.Valid() && k <= |payloads| && forall p | p in payloads :: Fits(p)
    decreases |payloads| - k
  {
    if k == |payloads| then []
    else FrameOf(h, k, |payloads|, payloads[k]) + FramesFrom(h, payloads, k + 1)
  }

  lemma WholeFrame(r: Reader, left: nat, pad: nat, s: Bytes, maxFrame: nat)
    requires |s| == left && pad <= left
    ensures Run(EnterBlock(r, left, pad), s, maxFrame) == FrameRead(r.(block := r.block + s[..left - pad]))
  {
    BlockReads(r, left, pad, s, maxFrame);
  }

  /** A CONTINUATION frame adds its payload to the block. */
  lemma ContinuationReads(r: Reader, hd: FrameHd, payload: Bytes, rest: Bytes, maxFrame: nat)
    requires r.phase == Cont([]) && hd.Valid() && hd.kind == CONTINUATION && hd.stream == r.hd.stream
    requires hd.length == |payload|
    ensures Run(r, PackHd(hd) + payload + rest, maxFrame)
         == Run(FrameRead(r.(hd := if hd.Has(END_HEADERS) then r.hd.Set(END_HEADERS) else r.hd,
                           block := r.block + payload)),
                rest, maxFrame)
  {
    var hd' := if hd.Has(END_HEADERS) then r.hd.Set(END_HEADERS) else r.hd;
    assert PackHd(hd) + payload + rest == PackHd(hd) + (payload + rest);
    RunConcat(r, PackHd(hd), payload + rest, maxFrame);
    ContInBulk(r, PackHd(hd), maxFrame);
    HdRoundTrip(hd);
    assert [] + PackHd(hd) == PackHd(hd);
    RunConcat(EnterBlock(r.(hd := hd'), |payload|, 0), payload, rest, maxFrame);
    WholeFrame(r.(hd := hd'), |payload|, 0, payload, maxFrame);
    assert payload[..|payload| - 0] == payload;
    assert FrameRead(r.(hd := hd', block := r.block + payload))
           == FrameRead(r.(hd := hd').(block := r.block + payload));
  }

  /** The CONTINUATION frames of a block, from number k on, complete it. */
  lemma {:induction false} ContinuationsRead(r: Reader, h: FrameHd, payloads: seq<Bytes>, k: nat, maxFrame: nat)
    requires r.phase == Cont([]) && h.Valid() && r.hd.Valid() && r.hd.stream == h.stream && 1 <= k < |payloads|
    requires !r.hd.Has(END_HEADERS)
    requires forall p | p in payloads :: Fits(p)
    ensures Run(r, FramesFrom(h, payloads, k), maxFrame)
         == r.(phase := Done, hd := r.hd.Set(END_HEADERS), block := r.block + Concat(payloads[k..]))
    decreases |payloads| - k
  {
    var hd, payload := HeaderOf(h, k, |payloads|, |payloads[k]|), payloads[k];
    var rest := FramesFrom(h, payloads, k + 1);
    assert payload in payloads;
    assert hd.Has(END_HEADERS) <==> k == |payloads| - 1;
    ContinuationReads(r, hd, payload, rest, maxFrame);
    EndHeadersSet(r.hd);
    assert payloads[k..] == [payload] + payloads[k + 1..];
    if k == |payloads| - 1 {
      assert payloads[k + 1..] == [] && payload + [] == payload;
    } else {
      var r1 := r.(block := r.block + payload);
      ContinuationsRead(FrameRead(r1), h, payloads, k + 1, maxFrame);
      assert r.block + (payload + Concat(payloads[k + 1..])) == (r.block + payload) + Concat(payloads[k + 1..]);
    }
  }

  /** The first frame, padded or not (padlen 0). */
  function FirstFrame(hd: FrameHd, payload: Bytes, padlen: nat): Bytes
    requires padlen <= 256 && hd.Valid() && PaddedHd(hd, padlen).Valid()
  {
    if padlen == 0 then PackHd(hd) + payload else Padded(hd, payload, padlen)
  }

  lemma FieldsRead(r: Reader, left: nat, pad: nat, fields: Bytes, rest: Bytes, maxFrame: nat)
    requires |fields| == FieldLen(r.hd) > 0 && left == |fields| + |rest|
    ensures Run(EnterFields(r, left, pad), fields + rest, maxFrame)
         == Run(EnterBlock(r.(fields := r.fields + fields), |rest|, pad), rest, maxFrame)
  {
    var r0 := EnterFields(r, left, pad);
    RunConcat(r0, fields, rest, maxFrame);
    FieldsInBulk(r0, fields, maxFrame);
    assert EnterBlock(r0.(fields := r0.fields + fields), |rest|, pad)
           == EnterBlock(r.(fields := r.fields + fields), |rest|, pad);
  }

  /** What reading the fields and then the fragment of a first frame comes to. */
  lemma PayloadReads(r: Reader, left: nat, pad: nat, payload: Bytes, padding: Bytes, maxFrame: nat)
    requires left == |payload| + |padding| && pad == |padding| && FieldLen(r.hd) <= |payload|
    ensures Run(EnterFields(r, left, pad), payload + padding, maxFrame)
         == FrameRead(r.(fields := r.fields + payload[..FieldLen(r.hd)], block := r.block + payload[FieldLen(r.hd)..]))
  {
    var n := FieldLen(r.hd);
    if n == 0 {
      assert payload[..0] == [] && payload[0..] == payload && r.fields + [] == r.fields;
      WholeFrame(r, left, pad, payload + padding, maxFrame);
      assert (payload + padding)[..left - pad] == payload;
    } else {
      var rest := payload[n..] + padding;
      assert payload + padding == payload[..n] + rest;
      FieldsRead(r, left, pad, payload[..n], rest, maxFrame);
      WholeFrame(r.(fields := r.fields + payload[..n]), |rest|, pad, rest, maxFrame);
      assert rest[..|rest| - pad] == payload[n..];
    }
  }

  /** Its header. */
  lemma FirstHeadReads(hd: FrameHd, rest: Bytes, maxFrame: nat)
    requires hd.Valid() && (hd.kind == HEADERS || hd.kind == PUSH_PROMISE) && hd.length <= maxFrame
    ensures Run(START, PackHd(hd) + rest, maxFrame) == Run(EnterFrame(START, hd, maxFrame), rest, maxFrame)
  {
    HdRoundTrip(hd);
    RunConcat(START, PackHd(hd), rest, maxFrame);
    HeadInBulk(START, PackHd(hd), maxFrame);
    assert [] + PackHd(hd) == PackHd(hd);
  }

  /** The first frame, padding and all, leaves its fields and its part of the block. */
  lemma FirstReads(hd: FrameHd, payload: Bytes, padlen: nat, maxFrame: nat)
    requires hd.Valid() && hd.length == |payload| && (hd.kind == HEADERS || hd.kind == PUSH_PROMISE) && !hd.Has(PADDED)
    requires padlen <= 256 && PaddedHd(hd, padlen).Valid() && FieldLen(hd) <= |payload|
    requires |payload| + padlen <= maxFrame
    ensures var hd' := if padlen == 0 then hd else PaddedHd(hd, padlen);
            var n := FieldLen(hd);
            Run(START, FirstFrame(hd, payload, padlen), maxFrame)
              == FrameRead(Reader(Head([]), hd', payload[..n], payload[n..]))
  {
    if padlen == 0 {
      FirstHeadReads(hd, payload, maxFrame);
      PayloadReads(START.(hd := hd), |payload|, 0, payload, [], maxFrame);
      assert payload + [] == payload;
      StartsEmpty(payload[..FieldLen(hd)], payload[FieldLen(hd)..]);
    } else {
      PaddedReads(hd, payload, padlen, maxFrame);
    }
  }

  lemma StartsEmpty(fields: Bytes, block: Bytes)
    ensures START.fields + fields == fields && START.block + block == block
  {
  }

  lemma PaddedReads(hd: FrameHd, payload: Bytes, padlen: nat, maxFrame: nat)
    requires hd.Valid() && hd.length == |payload| && (hd.kind == HEADERS || hd.kind == PUSH_PROMISE) && !hd.Has(PADDED)
    requires 1 <= padlen <= 256 && PaddedHd(hd, padlen).Valid() && FieldLen(hd) <= |payload|
    requires |payload| + padlen <= maxFrame
    ensures Run(START, Padded(hd, payload, padlen), maxFrame)
         == FrameRead(Reader(Head([]), PaddedHd(hd, padlen), payload[..FieldLen(hd)], payload[FieldLen(hd)..]))
  {
    var hd' := PaddedHd(hd, padlen);
    PaddedSet(hd);
    var pad: Bytes := [padlen - 1];
    var rest := payload + Zeros(padlen - 1);
    assert Padded(hd, payload, padlen) == PackHd(hd') + (pad + rest);
    FirstHeadReads(hd', pad + rest, maxFrame);
    assert (pad + rest)[0] == padlen - 1 && (pad + rest)[1..] == rest;
    PayloadReads(START.(hd := hd'), |rest|, padlen - 1, payload, Zeros(padlen - 1), maxFrame);
    StartsEmpty(payload[..FieldLen(hd)], payload[FieldLen(hd)..]);
  }

  // ---- what is refused

  /** A frame header is refused for its length, for its type, or for a payload too short for what it announces. */
  lemma HeadIsChecked(hd: FrameHd, maxFrame: nat)
    requires hd.Valid()
    ensures Run(START, PackHd(hd), maxFrame).phase == Broken <==>
            || hd.length > maxFrame || (hd.kind != HEADERS && hd.kind != PUSH_PROMISE)
            || hd.length < if hd.Has(PADDED) then 1 else FieldLen(hd)
  {
    HdRoundTrip(hd);
    HeadInBulk(START, PackHd(hd), maxFrame);
    assert [] + PackHd(hd) == PackHd(hd);
  }

  /** Padding, with the field that gives its length, must leave room for the fields of the frame. */
  lemma PadIsChecked(hd: FrameHd, b: byte, maxFrame: nat)
    requires hd.Valid() && (hd.kind == HEADERS || hd.kind == PUSH_PROMISE) && hd.Has(PADDED)
    requires 1 <= hd.length <= maxFrame
    ensures Run(START, PackHd(hd) + [b], maxFrame).phase == Broken <==> 1 + FieldLen(hd) + b > hd.length
  {
    FirstHeadReads(hd, [b], maxFrame);
    assert [b][1..] == [];
  }

  /** Between the frames of a block nothing else may come. */
  lemma ContinuationIsChecked(r: Reader, hd: FrameHd, maxFrame: nat)
    requires hd.Valid() && r.phase == Cont([])
    ensures Run(r, PackHd(hd), maxFrame).phase == Broken <==> hd.kind != CONTINUATION || hd.stream != r.hd.stream
  {
    HdRoundTrip(hd);
    ContInBulk(r, PackHd(hd), maxFrame);
    assert [] + PackHd(hd) == PackHd(hd);
  }

  /** All frames of a block, the first of them padded or not. */
  function BlockFrames(h: FrameHd, payloads: seq<Bytes>, padlen: nat): Bytes
    requires h.Valid() && payloads != [] && (forall p | p in payloads :: Fits(p)) && padlen <= 256
    requires PaddedHd(HeaderOf(h, 0, |payloads|, |payloads[0]|), padlen).Valid()
  {
    assert HeaderOf(h, 0, |payloads|, |payloads[0]|).Valid() by {
      EndHeadersSet(h);
      assert payloads[0] in payloads;
    }
    FirstFrame(HeaderOf(h, 0, |payloads|, |payloads[0]|), payloads[0], padlen) + FramesFrom(h, payloads, 1)
  }

  /** The first header keeps END_STREAM, padded or not, and when END_HEADERS comes back later, too. */
  lemma FlagsKept(h: FrameHd, n: nat, length: nat, padlen: nat)
    requires h.Valid() && n > 0 && length < 0x100_0000 && PaddedHd(HeaderOf(h, 0, n, length), padlen).Valid()
    ensures var hd := HeaderOf(h, 0, n, length);
            && hd.Has(END_STREAM) == PaddedHd(hd, padlen).Has(END_STREAM) == h.Has(END_STREAM)
            && hd.Set(END_HEADERS).Has(END_STREAM) == PaddedHd(hd, padlen).Set(END_HEADERS).Has(END_STREAM)
               == h.Has(END_STREAM)
  {
    EndHeadersSet(h);
    EndStreamKept(h);
    var hd := HeaderOf(h, 0, n, length);
    EndStreamKept(hd);
    EndStreamKept(PaddedHd(hd, padlen));
  }

  /**
   * A block spread over any number of frames, with or without padding, is reassembled exactly, behind the fields of
   * the first frame.
   */
  lemma BlockReassembled(h: FrameHd, payloads: seq<Bytes>, padlen: nat, maxFrame: nat)
    requires h.Valid() && (h.kind == HEADERS || h.kind == PUSH_PROMISE) && h.Has(END_HEADERS) && !h.Has(PADDED)
    requires payloads != [] && (forall p | p in payloads :: Fits(p)) && padlen <= 256
    requires PaddedHd(HeaderOf(h, 0, |payloads|, |payloads[0]|), padlen).Valid()
    requires FieldLen(h) <= |payloads[0]| && |payloads[0]| + padlen <= maxFrame
    ensures var r := Run(START, BlockFrames(h, payloads, padlen), maxFrame);
            && r.phase == Done && r.fields == payloads[0][..FieldLen(h)] && r.hd.stream == h.stream
            && r.block == payloads[0][FieldLen(h)..] + Concat(payloads[1..])
            && r.hd.kind == h.kind && r.hd.Has(END_STREAM) == h.Has(END_STREAM)
  {
    var n, first := |payloads|, payloads[0];
    var hd := HeaderOf(h, 0, n, |first|);
    FlagsKept(h, n, |first|, padlen);
    EndHeadersSet(h);
    PaddedSet(hd);
    assert first in payloads;
    FirstReads(hd, first, padlen, maxFrame);
    RunConcat(START, FirstFrame(hd, first, padlen), FramesFrom(h, payloads, 1), maxFrame);
    if n == 1 {
      assert payloads[1..] == [];
      assert first[FieldLen(h)..] + [] == first[FieldLen(h)..];
    } else {
      var hd' := if padlen == 0 then hd else PaddedHd(hd, padlen);
      var r := FrameRead(Reader(Head([]), hd', first[..FieldLen(hd)], first[FieldLen(hd)..]));
      ContinuationsRead(r, h, payloads, 1, maxFrame);
    }
  }

  /** END_HEADERS is on the last frame and on no other. */
  lemma EndHeadersOnLast(h: FrameHd, k: nat, n: nat, length: nat)
    requires h.Valid() && h.Has(END_HEADERS) && k < n
    ensures HeaderOf(h, k, n, length).Has(END_HEADERS) <==> k == n - 1
    ensures HeaderOf(h, k, n, length).kind == if k == 0 then h.kind else CONTINUATION
  {
    EndHeadersSet(h);
  }
}
