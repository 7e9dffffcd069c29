/**
 * Reading header blocks in place: the states of `nghttp2_session_mem_recv` for HEADERS, PUSH_PROMISE and
 * CONTINUATION frames, proved to reassemble what HeaderFrames reads byte by byte, whatever the pieces are.
 */
module HeaderReader {
  import opened Bytes
  import opened FrameHeader
  import opened FramePadding
  import opened HeaderFrames

  /** The states of the Ign kind are those of a block of which the application wants no more headers. */
  datatype State =
    | ReadHead | ReadNbyte | ReadHeaderBlock | IgnHeaderBlock | ExpectContinuation | IgnContinuation | Finished | Failed
  {
    predicate InBlock() {
      this == ReadHeaderBlock || this == IgnHeaderBlock
    }

    predicate InContinuation() {
      this == ExpectContinuation || this == IgnContinuation
    }
  }

  /** The part of `nghttp2_inbound_frame` for these frames; `block` is what the inflater has been given. */
  class InboundFrame {
    const maxFrame: nat
    var state: State
    var hd: FrameHd
    // bytes collected in sbuf
    var sbuf: Bytes
    var payloadleft: nat
    var padlen: nat
    var fields: Bytes
    var block: Bytes
    // the inflater has been told that the block ends
    var ended: bool

    constructor (maxFrame: nat)
      ensures Valid() && Value() == START && !ended && this.maxFrame == maxFrame
    {
      this.maxFrame := maxFrame;
      state, hd, sbuf, payloadleft, padlen, fields, block, ended := ReadHead, NO_HD, [], 0, 0, [], [], false;
    }

    /** `nghttp2_frame_trail_padlen` */
    function TrailPadlen(): (n: nat)
      requires padlen > 0 ==> hd.Has(PADDED)
      reads this`hd, this`padlen
    {
      if padlen == 0 then 0 else padlen - if hd.Has(PADDED) then 1 else 0
    }

    ghost predicate Valid()
      reads this
    {
      && (padlen > 0 ==> hd.Has(PADDED))
      && (state == ReadHead ==> |sbuf| < HDLEN && padlen == 0)
      && (state == ReadNbyte ==>
            (if padlen == 0 && hd.Has(PADDED) then sbuf == [] && payloadleft == hd.length >= 1
             else |sbuf| < FieldLen(hd) && FieldLen(hd) - |sbuf| + TrailPadlen() <= payloadleft))
      && (state.InBlock() && hd.Has(END_HEADERS) && !ended ==> TrailPadlen() <= payloadleft)
      && (state.InContinuation() ==> |sbuf| < HDLEN && padlen == 0 && !hd.Has(END_HEADERS))
      && (ended ==> state == Finished || state == Failed ||
                    (state.InBlock() && hd.Has(END_HEADERS) && payloadleft <= TrailPadlen()))
      && (state == Finished ==> ended)
    }

    /** The reader this object implements. */
    ghost function Value(): Reader
      requires padlen > 0 ==> hd.Has(PADDED)
      reads this
    {
      var r := Reader(Broken, hd, fields, block);
      match state
      case ReadHead => r.(phase := Head(sbuf))
      case ReadNbyte =>
        if padlen == 0 && hd.Has(PADDED) then r.(phase := PadLength)
        else r.(phase := Fields(payloadleft, TrailPadlen(), sbuf))
      case ReadHeaderBlock | IgnHeaderBlock => EnterBlock(r, payloadleft, TrailPadlen())
      case ExpectContinuation | IgnContinuation => r.(phase := Cont(sbuf))
      case Finished => r.(phase := Done)
      case Failed => r
    }

    /** `inflate_header_block`: more of the block, and whether this is its end.  After the end nothing is left. */
    method Inflate(data: Bytes, final: bool)
      requires ended ==> data == [] && final
      modifies this`block, this`ended
      ensures block == old(block) + data && ended == (old(ended) || final)
    {
      block := block + data;
      ended := ended || final;
    }

    /** Whether the application wants the headers of a block: `session_process_headers_frame` and the like. */
    method Wanted() returns (state: State)
      ensures state.InBlock()
    {
      var wanted: bool := *;
      state := if wanted then ReadHeaderBlock else IgnHeaderBlock;
    }

    /** The fields before the block are to be read, or the block itself. */
    method BeginPayload()
      requires state == ReadHead || state == ReadNbyte
      requires (padlen > 0 ==> hd.Has(PADDED)) && !ended && FieldLen(hd) + TrailPadlen() <= payloadleft
      requires padlen > 0 || !hd.Has(PADDED)
      modifies this`state, this`sbuf
      ensures Valid() && Value() == EnterFields(Reader(Broken, hd, fields, block), payloadleft, TrailPadlen())
    {
      sbuf := [];
      if FieldLen(hd) > 0 {
        state := ReadNbyte;
      } else {
        state := Wanted();
      }
    }

    /** State READ_HEAD. */
    method TurnHead(s: Bytes) returns (n: nat)
      requires Valid() && state == ReadHead && s != []
      modifies this
      ensures Valid() && 0 < n <= |s| && Value() == Run(old(Value()), s[..n], maxFrame)
    {
      ghost var r := Value();
      n := Min(|s|, HDLEN - |sbuf|);
      HeadInBulk(r, s[..n], maxFrame);
      sbuf := sbuf + s[..n];
      if |sbuf| == HDLEN {
        BeginFrame();
      }
    }

    /** The header of the first frame is there. */
    method BeginFrame()
      requires state == ReadHead && |sbuf| == HDLEN && padlen == 0 && !ended
      modifies this`state, this`hd, this`sbuf, this`payloadleft
      ensures Valid()
      ensures Value() == EnterFrame(Reader(Broken, old(hd), fields, block), UnpackHd(old(sbuf)), maxFrame)
    {
      hd := UnpackHd(sbuf);
      payloadleft := hd.length;
      if hd.length > maxFrame || (hd.kind != HEADERS && hd.kind != PUSH_PROMISE) {
        state := Failed;
      } else if hd.Has(PADDED) {
        sbuf := [];
        state := if hd.length < 1 then Failed else ReadNbyte;
      } else if payloadleft < FieldLen(hd) {
        state := Failed;
      } else {
        BeginPayload();
      }
    }

    /** State READ_NBYTE, for the Pad Length field. */
    method TurnPadLength(b: byte)
      requires Valid() && state == ReadNbyte && padlen == 0 && hd.Has(PADDED)
      modifies this
      ensures Valid() && Value() == Run(old(Value()), [b], maxFrame)
    {
      assert [b][1..] == [];
      payloadleft := payloadleft - 1;
      var pad := b + 1;
      if pad - 1 > payloadleft || pad + FieldLen(hd) > 1 + payloadleft {
        state := Failed;
      } else {
        padlen := pad;
        BeginPayload();
      }
    }

    /** State READ_NBYTE, for the fields before the block. */
    method TurnFields(s: Bytes) returns (n: nat)
      requires Valid() && state == ReadNbyte && !(padlen == 0 && hd.Has(PADDED)) && s != []
      modifies this
      ensures Valid() && 0 < n <= |s| && Value() == Run(old(Value()), s[..n], maxFrame)
    {
      ghost var r := Value();
      n := Min(|s|, FieldLen(hd) - |sbuf|);
      FieldsInBulk(r, s[..n], maxFrame);
      AddFields(s[..n]);
    }

    /** Some of the fields before the block. */
    method AddFields(data: Bytes)
      requires Valid() && state == ReadNbyte && !(padlen == 0 && hd.Has(PADDED)) && |sbuf| + |data| <= FieldLen(hd)
      modifies this`sbuf, this`fields, this`payloadleft, this`state
      ensures Valid() && fields == old(fields) + data
      ensures var r, left := Reader(Broken, hd, fields, block), old(payloadleft) - |data|;
              Value() == if |old(sbuf)| + |data| == FieldLen(hd) then EnterBlock(r, left, TrailPadlen())
                         else r.(phase := Fields(left, TrailPadlen(), old(sbuf) + data))
    {
      sbuf, fields := sbuf + data, fields + data;
      payloadleft := payloadleft - |data|;
      if |sbuf| == FieldLen(hd) {
        state := Wanted();
      }
    }

    /** States EXPECT_CONTINUATION and IGN_CONTINUATION. */
    method TurnContinuation(s: Bytes) returns (n: nat)
      requires Valid() && state.InContinuation() && s != []
      modifies this
      ensures Valid() && 0 < n <= |s| && Value() == Run(old(Value()), s[..n], maxFrame)
    {
      ghost var r := Value();
      n := Min(|s|, HDLEN - |sbuf|);
      ContInBulk(r, s[..n], maxFrame);
      sbuf := sbuf + s[..n];
      if |sbuf| < HDLEN {
        return;
      }
      var cont := UnpackHd(sbuf);
      if cont.kind != CONTINUATION || cont.stream != hd.stream {
        state := Failed;
      } else {
        payloadleft := cont.length;
        if cont.Has(END_HEADERS) {
          hd := hd.Set(END_HEADERS);
        }
        state := if state == ExpectContinuation then ReadHeaderBlock else IgnHeaderBlock;
      }
    }

    /** There is nothing to do before more input comes. */
    predicate Idle()
      reads this
    {
      !(state.InBlock() && payloadleft == 0)
    }

    /**
     * States READ_HEADER_BLOCK and IGN_HEADER_BLOCK, perhaps without any input.  A header callback may want no more
     * headers of this block after some of the bytes; the block is read on, and decompressed, all the same.
     */
    method TurnBlock(s: Bytes) returns (n: nat)
      requires Valid() && state.InBlock()
      modifies this
      ensures Valid() && n <= |s| && Value() == Run(old(Value()), s[..n], maxFrame)
      ensures (n > 0 || Idle()) && (n == 0 && s != [] ==> !old(Idle()))
    {
      ghost var r, left, pad := Reader(Broken, hd, fields, block), payloadleft, TrailPadlen();
      assert Value() == EnterBlock(r, left, pad);
      n := ReadBlock(s);
      BlockReads(r, left, pad, s[..n], maxFrame);
      assert s[..n][..Effective(left, pad, n)] == s[..Effective(left, pad, n)];
    }

    /** What the turn does to the block. */
    method ReadBlock(s: Bytes) returns (n: nat)
      requires Valid() && state.InBlock()
      modifies this`state, this`block, this`ended, this`payloadleft, this`sbuf, this`padlen
      ensures Valid() && n <= |s| && n <= old(payloadleft)
      ensures block == old(block) + s[..Effective(old(payloadleft), old(TrailPadlen()), n)]
      ensures Value() == EnterBlock(Reader(Broken, hd, fields, block), old(payloadleft) - n, old(TrailPadlen()))
      ensures (n > 0 || Idle()) && (n == 0 && s != [] ==> !old(Idle()))
    {
      n := Min(|s|, payloadleft);
      var data := Effective(payloadleft, TrailPadlen(), n);
      var refused: bool := *;
      if refused && state == ReadHeaderBlock && data > 0 {
        n := Refuse(s, data);
      } else {
        PassOn(s[..data]);
        EndTurn(n);
      }
    }

    /** The bytes up to the header that is refused; `NGHTTP2_ERR_TEMPORAL_CALLBACK_FAILURE`. */
    method Refuse(s: Bytes, data: nat) returns (n: nat)
      requires Valid() && state == ReadHeaderBlock && 0 < data <= |s| && data + TrailPadlen() <= payloadleft
      modifies this`state, this`block, this`ended, this`payloadleft
      ensures Valid() && 0 < n <= data && block == old(block) + s[..n]
      ensures Value() == EnterBlock(Reader(Broken, hd, fields, block), old(payloadleft) - n, TrailPadlen())
    {
      n :| 0 < n <= data;
      Inflate(s[..n], false);
      payloadleft := payloadleft - n;
      state := IgnHeaderBlock;
    }

    /** What the inflater gets of a chunk: its part of the block, or word that the block has ended before it. */
    method PassOn(data: Bytes)
      requires state.InBlock() && Valid() && |data| <= payloadleft
      requires hd.Has(END_HEADERS) && data != [] ==> TrailPadlen() + |data| <= payloadleft
      modifies this`block, this`ended
      ensures block == old(block) + data
      ensures ended == (old(ended) || (hd.Has(END_HEADERS) && payloadleft - |data| == TrailPadlen()))
    {
      var final := hd.Has(END_HEADERS) && payloadleft - |data| == TrailPadlen();
      if |data| > 0 || final {
        Inflate(data, final);
      }
    }

    /** n bytes of the payload are done, and with the last of them the frame. */
    method EndTurn(n: nat)
      requires state.InBlock() && n <= payloadleft && (padlen > 0 ==> hd.Has(PADDED))
      requires hd.Has(END_HEADERS) && !ended ==> n + TrailPadlen() <= payloadleft
      requires ended ==> hd.Has(END_HEADERS) && payloadleft - n <= TrailPadlen()
      requires n == payloadleft && hd.Has(END_HEADERS) ==> ended
      modifies this`payloadleft, this`sbuf, this`padlen, this`state
      ensures Valid()
      ensures Value() == EnterBlock(Reader(Broken, hd, fields, block), old(payloadleft) - n, old(TrailPadlen()))
      ensures Idle()
    {
      payloadleft := payloadleft - n;
      if payloadleft == 0 {
        if hd.Has(END_HEADERS) {
          state := Finished;
        } else {
          sbuf, padlen, state := [], 0, if state == ReadHeaderBlock then ExpectContinuation else IgnContinuation;
        }
      }
    }

    /** State READ_NBYTE. */
    method TurnNbyte(s: Bytes) returns (n: nat)
      requires Valid() && state == ReadNbyte && s != []
      modifies this
      ensures Valid() && 0 < n <= |s| && Value() == Run(old(Value()), s[..n], maxFrame)
    {
      if padlen == 0 && hd.Has(PADDED) {
        assert s[..1] == [s[0]];
        TurnPadLength(s[0]);
        n := 1;
      } else {
        n := TurnFields(s);
      }
    }

    /** One state's turn at the input s. */
    method Turn(s: Bytes) returns (n: nat)
      requires Valid() && state != Finished && state != Failed && (s != [] || !Idle())
      modifies this
      ensures Valid() && n <= |s| && Value() == Run(old(Value()), s[..n], maxFrame)
      ensures n == 0 ==> !old(Idle()) && Idle()
    {
      if state == ReadHead {
        n := TurnHead(s);
      } else if state.InContinuation() {
        n := TurnContinuation(s);
      } else if state.InBlock() {
        n := TurnBlock(s);
      } else {
        n := TurnNbyte(s);
      }
    }

    /** `nghttp2_session_mem_recv`: a piece of what the peer sends, up to the end of the header block. */
    method MemRecv(s: Bytes) returns (n: nat)
      requires Valid() && state != Finished && state != Failed
      modifies this
      ensures Valid() && n <= |s| && Value() == Run(old(Value()), s[..n], maxFrame)
      ensures Value().phase == Done || Value().phase == Broken || n == |s|
      ensures state == Finished <==> Value().phase == Done
      ensures state == Failed <==> Value().phase == Broken
    {
      n := 0;
      ghost var r := Value();
      assert s[..0] == [];
      while state != Finished && state != Failed && (n < |s| || !Idle())
        invariant Valid() && n <= |s| && Value() == Run(r, s[..n], maxFrame)
        decreases |s| - n, if Idle() then 0 else 1
      {
        var used := Turn(s[n..]);
        RunOn(r, s, n, used, maxFrame);
        n := n + used;
      }
    }
  }

  lemma RunOn(r: Reader, s: Bytes, n: nat, used: nat, maxFrame: nat)
    requires n + used <= |s|
    ensures Run(r, s[..n + used], maxFrame) == Run(Run(r, s[..n], maxFrame), s[n..][..used], maxFrame)
  {
    RunConcat(r, s[..n], s[n..][..used], maxFrame);
    assert s[..n + used] == s[..n] + s[n..][..used];
  }

  // ---- pieces

  /**
   * The frames of a header block, padded or not, cut into any pieces: the inflater is given exactly the block, and
   * told that it ends; the fields before it are read too.
   */
  method ReadPieces(frame: InboundFrame, pieces: seq<Bytes>, ghost h: FrameHd, ghost payloads: seq<Bytes>,
                    ghost padlen: nat)
    requires frame.Valid() && frame.state == ReadHead && frame.Value() == START
    requires h.Valid() && (h.kind == HEADERS || h.kind == PUSH_PROMISE) && h.Has(END_HEADERS) && !h.Has(PADDED)
    requires payloads != [] && (forall p | p in payloads :: Fits(p)) && padlen <= 256
    requires PaddedHd(HeaderOf(h, 0, |payloads|, |payloads[0]|), padlen).Valid()
    requires FieldLen(h) <= |payloads[0]| && |payloads[0]| + padlen <= frame.maxFrame
    requires Concat(pieces) == BlockFrames(h, payloads, padlen)
    modifies frame
    ensures frame.state == Finished && frame.ended && frame.fields == payloads[0][..FieldLen(h)]
    ensures frame.block == payloads[0][FieldLen(h)..] + Concat(payloads[1..])
  {
    ghost var whole := Concat(pieces);
    ghost var done, rest := [], whole;
    assert pieces[0..] == pieces;
    var i := 0;
    while i < |pieces| && frame.state != Finished && frame.state != Failed
      invariant frame.Valid() && i <= |pieces| && whole == done + rest
      invariant frame.Value() == Run(START, done, frame.maxFrame) && Telling(frame)
      invariant frame.state == Finished || frame.state == Failed || rest == Concat(pieces[i..])
    {
      var n := frame.MemRecv(pieces[i]);
      RunConcat(START, done, pieces[i][..n], frame.maxFrame);
      Cut(done, rest, pieces, i, n);
      done, rest := done + pieces[i][..n], pieces[i][n..] + Concat(pieces[i + 1..]);
      i := i + 1;
    }
    RunConcat(START, done, rest, frame.maxFrame);
    RunStops(frame.Value(), rest, frame.maxFrame);
    BlockReassembled(h, payloads, padlen, frame.maxFrame);
    assert frame.Value() == Run(START, whole, frame.maxFrame);
  }

  /** The state says whether the reader is done or broken. */
  ghost predicate Telling(frame: InboundFrame)
    requires frame.padlen > 0 ==> frame.hd.Has(PADDED)
    reads frame
  {
    (frame.state == Finished <==> frame.Value().phase == Done)
    && (frame.state == Failed <==> frame.Value().phase == Broken)
  }

  lemma Cut(done: Bytes, rest: Bytes, pieces: seq<Bytes>, i: nat, n: nat)
    requires i < |pieces| && n <= |pieces[i]| && rest == Concat(pieces[i..])
    ensures done + rest == done + pieces[i][..n] + (pieces[i][n..] + Concat(pieces[i + 1..]))
    ensures n == |pieces[i]| ==> pieces[i][n..] + Concat(pieces[i + 1..]) == Concat(pieces[i + 1..])
  {
    assert pieces[i..][1..] == pieces[i + 1..];
    assert pieces[i] == pieces[i][..n] + pieces[i][n..];
  }

  lemma {:induction false} RunStops(r: Reader, s: Bytes, maxFrame: nat)
    ensures r.phase == Done || r.phase == Broken ==> Run(r, s, maxFrame) == r
    decreases |s|
  {
    if s != [] && (r.phase == Done || r.phase == Broken) {
      RunStops(r, s[1..], maxFrame);
    }
  }
}
