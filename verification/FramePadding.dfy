/** Padding a packed frame in its buffer: `frame_set_pad`, which moves the frame header and extends the buffer. */
module FramePadding {
  import opened Bytes
  import opened FrameHeader

  function Zeros(n: nat): (r: Bytes)
    ensures |r| == n && forall k | 0 <= k < n :: r[k] == 0
  {
    seq(n, _ => 0)
  }

  /** The header of the padded frame. */
  function PaddedHd(hd: FrameHd, padlen: nat): FrameHd {
    hd.Set(PADDED).(length := hd.length + padlen)
  }

  /** The frame with padlen bytes of padding, the Pad Length field included. */
  function Padded(hd: FrameHd, payload: Bytes, padlen: nat): Bytes
    requires 1 <= padlen <= 256 && PaddedHd(hd, padlen).Valid()
  {
    PackHd(PaddedHd(hd, padlen)) + [padlen - 1] + payload + Zeros(padlen - 1)
  }

  /** `memmove` of n bytes by one byte to the left, to start at `to` */
  method MoveLeft(buf: array<byte>, to: nat, n: nat)
    requires to + 1 + n <= buf.Length
    modifies buf
    ensures buf[to..to + n] == old(buf[to + 1..to + 1 + n])
    ensures buf[..to] == old(buf[..to]) && buf[to + n..] == old(buf[to + n..])
  {
    ghost var was := buf[..];
    var k := to;
    while k < to + n
      invariant to <= k <= to + n
      invariant forall j | to <= j < k :: buf[j] == was[j + 1]
      invariant buf[..to] == was[..to] && buf[k..] == was[k..]
    {
      assert buf[k + 1] == buf[k..][1] == was[k..][1];
      buf[k] := buf[k + 1];
      assert buf[k + 1..] == was[k..][1..];
      k := k + 1;
    }
  }

  /** `memset` to zero */
  method Clear(buf: array<byte>, from: nat, n: nat)
    requires from + n <= buf.Length
    modifies buf
    ensures buf[from..from + n] == Zeros(n) && buf[..from] == old(buf[..from])
    ensures buf[from + n..] == old(buf[from + n..])
  {
    ghost var was := buf[..];
    var k := 0;
    while k < n
      invariant 0 <= k <= n
      invariant forall j | 0 <= j < buf.Length :: buf[j] == if from <= j < from + k then 0 else was[j]
    {
      buf[from + k] := 0;
      k := k + 1;
    }
  }

  /** The new length and flag, written over the header at pos. */
  method RewriteHd(buf: array<byte>, pos: nat, padlen: nat, ghost hd: FrameHd)
    requires pos + HDLEN <= buf.Length && hd.Valid() && buf[pos..pos + HDLEN] == PackHd(hd)
    requires hd.length + padlen < 0x100_0000
    modifies buf
    ensures PaddedHd(hd, padlen).Valid() && buf[pos..pos + HDLEN] == PackHd(PaddedHd(hd, padlen))
    ensures buf[..pos] == old(buf[..pos]) && buf[pos + HDLEN..] == old(buf[pos + HDLEN..])
  {
    PaddedSet(hd);
    HdRoundTrip(hd);
    var was := UnpackHd(buf[pos..pos + HDLEN]);
    var now := PackHd(PaddedHd(was, padlen));
    forall k | 0 <= k < HDLEN {
      buf[pos + k] := now[k];
    }
  }

  /** The header one byte to the left, with the new length and flag. */
  method ShiftHd(buf: array<byte>, pos: nat, padlen: nat, ghost hd: FrameHd)
    requires 1 <= pos && pos + HDLEN <= buf.Length && 1 <= padlen <= 256
    requires hd.Valid() && buf[pos..pos + HDLEN] == PackHd(hd) && hd.length + padlen < 0x100_0000
    modifies buf
    ensures PaddedHd(hd, padlen).Valid() && buf[pos - 1..pos - 1 + HDLEN] == PackHd(PaddedHd(hd, padlen))
    ensures buf[..pos - 1] == old(buf[..pos - 1]) && buf[pos - 1 + HDLEN..] == old(buf[pos - 1 + HDLEN..])
  {
    MoveLeft(buf, pos - 1, HDLEN);
    RewriteHd(buf, pos - 1, padlen, hd);
  }

  /** The Pad Length field behind the header. */
  method PutPadLength(buf: array<byte>, at: nat, padlen: nat)
    requires HDLEN <= at < buf.Length && 1 <= padlen <= 256
    modifies buf
    ensures buf[at] == padlen - 1 && buf[..at] == old(buf[..at]) && buf[at + 1..] == old(buf[at + 1..])
  {
    buf[at] := padlen - 1;
  }

  /**
   * `frame_set_pad`: the frame of which the header starts at pos and the payload ends at last, padded; it starts one
   * byte earlier afterwards.  With hdOnly, for a payload that is not copied to the buffer, only the header is changed.
   */
  method SetPad(buf: array<byte>, pos: nat, last: nat, padlen: nat, hdOnly: bool, ghost hd: FrameHd)
      returns (pos': nat, last': nat)
    requires 1 <= pos && pos + HDLEN <= last && 1 <= padlen <= 256 && last + padlen - 1 <= buf.Length
    requires hd.Valid() && buf[pos..pos + HDLEN] == PackHd(hd) && hd.length == last - pos - HDLEN
    requires hd.length + padlen < 0x100_0000
    modifies buf
    ensures pos' == pos - 1 && last' == (if hdOnly then last else last + padlen - 1) && PaddedHd(hd, padlen).Valid()
    ensures buf[..pos'] == old(buf[..pos']) && buf[last'..] == old(buf[last'..])
    ensures !hdOnly ==> buf[pos'..last'] == Padded(hd, old(buf[pos + HDLEN..last]), padlen)
    ensures hdOnly ==> buf[pos'..last'] == PackHd(PaddedHd(hd, padlen)) + old(buf[pos - 1 + HDLEN..last])
  {
    ghost var was := buf[..];
    ShiftHd(buf, pos, padlen, hd);
    ghost var moved := buf[..];
    if hdOnly {
      pos', last' := pos - 1, last;
      HeaderOnly(was, moved, pos, last, PackHd(PaddedHd(hd, padlen)));
      return;
    }
    PutPadLength(buf, pos - 1 + HDLEN, padlen);
    ghost var shifted := buf[..];
    Shifted(was, moved, shifted, pos);
    Clear(buf, last, padlen - 1);
    pos', last' := pos - 1, last + padlen - 1;
    Pieced(was, shifted, buf[..], pos, last, padlen, hd);
  }

  lemma HeaderOnly(was: Bytes, moved: Bytes, pos: nat, last: nat, header: Bytes)
    requires |was| == |moved| && 1 <= pos && pos + HDLEN <= last <= |was| && |header| == HDLEN
    requires moved[pos - 1..pos - 1 + HDLEN] == header && moved[pos - 1 + HDLEN..] == was[pos - 1 + HDLEN..]
    ensures moved[pos - 1..last] == header + was[pos - 1 + HDLEN..last] && moved[last..] == was[last..]
  {
    SuffixSlice(moved, was, pos - 1 + HDLEN, last);
    assert moved[pos - 1..last] == moved[pos - 1..pos - 1 + HDLEN] + moved[pos - 1 + HDLEN..last];
  }

  /** One byte behind the header leaves the header, and what was around both. */
  lemma Shifted(was: Bytes, moved: Bytes, shifted: Bytes, pos: nat)
    requires |was| == |moved| == |shifted| && 1 <= pos && pos + HDLEN <= |was|
    requires moved[..pos - 1] == was[..pos - 1] && moved[pos - 1 + HDLEN..] == was[pos - 1 + HDLEN..]
    requires shifted[..pos - 1 + HDLEN] == moved[..pos - 1 + HDLEN] && shifted[pos + HDLEN..] == moved[pos + HDLEN..]
    ensures shifted[..pos - 1] == was[..pos - 1] && shifted[pos + HDLEN..] == was[pos + HDLEN..]
    ensures shifted[pos - 1..pos - 1 + HDLEN] == moved[pos - 1..pos - 1 + HDLEN]
  {
    SuffixSlice(moved, was, pos - 1 + HDLEN, pos + HDLEN);
    PrefixSlice(shifted, moved, pos - 1 + HDLEN, 0, pos - 1);
    PrefixSlice(shifted, moved, pos - 1 + HDLEN, pos - 1, pos - 1 + HDLEN);
    assert shifted[..pos - 1] == shifted[0..pos - 1] && moved[..pos - 1] == moved[0..pos - 1];
  }

  lemma Pieced(was: Bytes, shifted: Bytes, now: Bytes, pos: nat, last: nat, padlen: nat, hd: FrameHd)
    requires |was| == |shifted| == |now| && 1 <= pos && pos + HDLEN <= last && 1 <= padlen <= 256
    requires last + padlen - 1 <= |was| && PaddedHd(hd, padlen).Valid()
    requires shifted[pos - 1..pos - 1 + HDLEN] == PackHd(PaddedHd(hd, padlen)) && shifted[pos - 1 + HDLEN] == padlen - 1
    requires shifted[..pos - 1] == was[..pos - 1] && shifted[pos + HDLEN..] == was[pos + HDLEN..]
    requires now[last..last + padlen - 1] == Zeros(padlen - 1) && now[..last] == shifted[..last]
    requires now[last + padlen - 1..] == shifted[last + padlen - 1..]
    ensures now[pos - 1..last + padlen - 1] == Padded(hd, was[pos + HDLEN..last], padlen)
    ensures now[..pos - 1] == was[..pos - 1] && now[last + padlen - 1..] == was[last + padlen - 1..]
  {
    var s, payload := now[pos - 1..last + padlen - 1], was[pos + HDLEN..last];
    PrefixSlice(now, shifted, last, pos - 1, pos - 1 + HDLEN);
    PrefixSlice(now, shifted, last, pos + HDLEN, last);
    PrefixSlice(now, shifted, last, 0, pos - 1);
    SuffixSlice(shifted, was, pos + HDLEN, last);
    SuffixSlice(shifted, was, pos + HDLEN, last + padlen - 1);
    assert now[..last][pos - 1 + HDLEN] == shifted[..last][pos - 1 + HDLEN];
    assert s[..HDLEN] == now[pos - 1..pos - 1 + HDLEN];
    assert s[HDLEN + 1..HDLEN + 1 + |payload|] == now[pos + HDLEN..last];
    assert shifted[pos + HDLEN..last] == shifted[pos + HDLEN..][..|payload|] == payload;
    assert s[HDLEN + 1 + |payload|..] == now[last..last + padlen - 1];
    Assembled(s, hd, payload, padlen);
    assert now[..pos - 1] == now[0..pos - 1] && shifted[..pos - 1] == shifted[0..pos - 1];
  }

  lemma PrefixSlice(a: Bytes, b: Bytes, k: nat, i: nat, j: nat)
    requires i <= j <= k <= |a| && k <= |b| && a[..k] == b[..k]
    ensures a[i..j] == b[i..j]
  {
    assert a[i..j] == a[..k][i..j];
    assert b[i..j] == b[..k][i..j];
  }

  lemma SuffixSlice(a: Bytes, b: Bytes, k: nat, i: nat)
    requires k <= i <= |a| == |b| && a[k..] == b[k..]
    ensures a[i..] == b[i..] && a[k..i] == b[k..i]
  {
    assert a[i..] == a[k..][i - k..] && b[i..] == b[k..][i - k..];
    assert a[k..i] == a[k..][..i - k] && b[k..i] == b[k..][..i - k];
  }

  lemma Assembled(s: Bytes, hd: FrameHd, payload: Bytes, padlen: nat)
    requires 1 <= padlen <= 256 && PaddedHd(hd, padlen).Valid() && |s| == HDLEN + |payload| + padlen
    requires s[..HDLEN] == PackHd(PaddedHd(hd, padlen)) && s[HDLEN] == padlen - 1
    requires s[HDLEN + 1..HDLEN + 1 + |payload|] == payload && s[HDLEN + 1 + |payload|..] == Zeros(padlen - 1)
    ensures s == Padded(hd, payload, padlen)
  {
    assert s == s[..HDLEN] + [s[HDLEN]] + s[HDLEN + 1..HDLEN + 1 + |payload|] + s[HDLEN + 1 + |payload|..];
  }
}
