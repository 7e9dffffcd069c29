/** The nine bytes at the head of every frame (section 4.1 of RFC 7540), and the flags that matter here. */
module FrameHeader {
  import opened Bytes

  /** `NGHTTP2_FRAME_HDLEN` */
  const HDLEN: nat := 9

  // frame types
  const DATA: nat := 0
  const HEADERS: nat := 1
  const PUSH_PROMISE: nat := 5
  const CONTINUATION: nat := 9

  // flags
  const END_STREAM: nat := 0x01
  const END_HEADERS: nat := 0x04
  const PADDED: nat := 0x08
  const PRIORITY: nat := 0x20

  /** `nghttp2_frame_hd` */
  datatype FrameHd = FrameHd(length: nat, kind: nat, flags: nat, stream: nat)
  {
    predicate Valid() {
      length < 0x100_0000 && kind < 256 && flags < 256 && stream < 0x8000_0000
    }

    predicate Has(flag: nat)
      requires flag > 0
    {
      (flags / flag) % 2 == 1
    }

    /** With the flag set. */
    function Set(flag: nat): FrameHd
      requires flag > 0
    {
      if Has(flag) then this else this.(flags := flags + flag)
    }

    /** With the flag removed. */
    function Clear(flag: nat): FrameHd
      requires flag > 0
    {
      if Has(flag) && flags >= flag then this.(flags := flags - flag) else this
    }
  }

  function Be32(n: nat): (r: Bytes)
    requires n < TWO32
    ensures |r| == 4
  {
    [n / 0x100_0000, n / 0x1_0000 % 256, n / 256 % 256, n % 256]
  }

  function FromBe32(b: Bytes): (n: nat)
    requires |b| == 4
    ensures n < TWO32
  {
    var b0: int, b1: int, b2: int, b3: int := b[0], b[1], b[2], b[3];
    b0 * 0x100_0000 + b1 * 0x1_0000 + b2 * 256 + b3
  }

  /** What `nghttp2_frame_pack_frame_hd` writes. */
  function PackHd(h: FrameHd): (r: Bytes)
    requires h.Valid()
    ensures |r| == HDLEN
  {
    Be32(h.length * 256)[..3] + [h.kind, h.flags] + Be32(h.stream)
  }

  /** `nghttp2_frame_unpack_frame_hd` */
  function UnpackHd(b: Bytes): (h: FrameHd)
    requires |b| == HDLEN
    ensures h.Valid()
  {
    FrameHd(FromBe32(b[..4]) / 256, b[3], b[4], FromBe32(b[5..9]) % 0x8000_0000)
  }

  lemma Be32RoundTrip(n: nat)
    requires n < TWO32
    ensures FromBe32(Be32(n)) == n
  {
    var a := n / 256;
    var b := a / 256;
    assert n / 0x1_0000 == b && n / 0x100_0000 == b / 256;
    assert n == a * 256 + n % 256 && a == b * 256 + a % 256 && b == (b / 256) * 256 + b % 256;
  }

  lemma HdRoundTrip(h: FrameHd)
    requires h.Valid()
    ensures UnpackHd(PackHd(h)) == h
  {
    var b, l := PackHd(h), Be32(h.length * 256);
    Be32RoundTrip(h.length * 256);
    Be32RoundTrip(h.stream);
    assert b[5..9] == Be32(h.stream);
    assert b[..4] == l[..3] + [h.kind];
    assert FromBe32(b[..4]) == h.length * 256 + h.kind;
  }

  lemma EndHeadersSet(h: FrameHd)
    requires h.Valid()
    ensures h.Set(END_HEADERS).Valid() && h.Set(END_HEADERS).Has(END_HEADERS)
    ensures h.Clear(END_HEADERS).Valid() && !h.Clear(END_HEADERS).Has(END_HEADERS)
    ensures h.Clear(END_HEADERS).Has(PADDED) == h.Has(PADDED) && h.Clear(END_HEADERS).Has(PRIORITY) == h.Has(PRIORITY)
  {
  }

  /** END_STREAM is no business of the other flags. */
  lemma EndStreamKept(h: FrameHd)
    requires h.Valid()
    ensures h.Set(END_HEADERS).Has(END_STREAM) == h.Has(END_STREAM)
    ensures h.Clear(END_HEADERS).Has(END_STREAM) == h.Has(END_STREAM)
    ensures h.Set(PADDED).Has(END_STREAM) == h.Has(END_STREAM)
  {
  }

  lemma PaddedSet(h: FrameHd)
    requires h.Valid()
    ensures h.Set(PADDED).Valid() && h.Set(PADDED).Has(PADDED)
    ensures h.Set(PADDED).Has(END_HEADERS) == h.Has(END_HEADERS) && h.Set(PADDED).Has(PRIORITY) == h.Has(PRIORITY)
    ensures h.Set(PADDED).Has(END_STREAM) == h.Has(END_STREAM)
  {
  }
}
