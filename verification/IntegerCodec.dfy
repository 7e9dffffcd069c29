/**
 * The prefix integer of section 5.1 of RFC 7541, as the encoder writes it and as the decoder reads it
 * with its saved (value, shift) pair, so that a read can stop and resume at any byte.
 */
module IntegerCodec {
  import opened Bytes

  /** The bytes after the prefix byte: groups of seven bits, least significant first. */
  function Tail(n: nat): (t: Bytes)
    ensures |t| >= 1
  {
    if n < 128 then [n] else [128 + n % 128] + Tail(n / 128)
  }

  /** 1 << prefix, for the four prefix widths in use. */
  function Radix(prefix: nat): (r: nat)
    requires 4 <= prefix <= 7
    ensures 16 <= r <= 128
  {
    if prefix == 4 then 16 else if prefix == 5 then 32 else if prefix == 6 then 64 else 128
  }

  /** b & (1 << prefix) - 1. */
  function LowBits(b: nat, prefix: nat): (r: nat)
    requires 4 <= prefix <= 7
    ensures r < Radix(prefix)
  {
    if prefix == 4 then b % 16 else if prefix == 5 then b % 32
    else if prefix == 6 then b % 64 else b % 128
  }

  /** A representation byte: its prefix bits are clear. */
  predicate PrefixOk(prefix: nat, high: nat) {
    && 4 <= prefix <= 7
    && high < 256
    && LowBits(high, prefix) == 0
  }

  /** The whole encoding; `high` holds the representation bits above the prefix. */
  function EncodeInt(high: nat, n: nat, prefix: nat): (t: Bytes)
    requires PrefixOk(prefix, high)
    ensures |t| >= 1
  {
    var k := Radix(prefix) - 1;
    HighRoom(high, prefix, Min(n, k));
    if n < k then [high + n] else [high + k] + Tail(n - k)
  }

  lemma HighRoom(high: nat, prefix: nat, m: nat)
    requires PrefixOk(prefix, high) && m < Radix(prefix)
    ensures high + m < 256 && LowBits(high + m, prefix) == m
  {
    if prefix == 4 {
      assert high == 16 * (high / 16);
    } else if prefix == 5 {
      assert high == 32 * (high / 32);
    } else if prefix == 6 {
      assert high == 64 * (high / 64);
    }
  }

  /** Outcome of reading bytes of an integer. */
  datatype IntResult =
    | IntError
    | IntPartial(n: nat, shift: nat)
    | IntDone(n: nat, used: nat)

  /** One continuation byte: the three overflow checks, then the addition. */
  function ContinueByte(n: nat, shift: nat, b: byte): (r: IntResult)
    ensures r.IntPartial? ==> n <= r.n <= U32_MAX && r.shift == shift + 7
    ensures r.IntDone? ==> n <= r.n <= U32_MAX && r.used == 1
  {
    var add := b % 128;
    if shift >= 32 || Shr(U32_MAX, shift) < add || U32_MAX - Shl(add, shift) < n then IntError
    else if b < 128 then IntDone(n + Shl(add, shift), 1)
    else IntPartial(n + Shl(add, shift), shift + 7)
  }

  /** One byte of an integer read from the saved pair; a saved value of zero means the prefix byte is next. */
  function IntByte(n: nat, shift: nat, b: byte, prefix: nat): (r: IntResult)
    requires 4 <= prefix <= 7
    ensures r.IntPartial? && n <= U32_MAX ==> 0 < r.n <= U32_MAX && n <= r.n
    ensures r.IntDone? && n <= U32_MAX ==> r.n <= U32_MAX && n <= r.n && r.used == 1
  {
    if n == 0 then
      if LowBits(b, prefix) != Radix(prefix) - 1 then IntDone(LowBits(b, prefix), 1)
      else IntPartial(Radix(prefix) - 1, 0)
    else ContinueByte(n, shift, b)
  }

  /** Reading a run of bytes is reading them one at a time. */
  function DecodeInt(n: nat, shift: nat, s: Bytes, prefix: nat): (r: IntResult)
    requires 4 <= prefix <= 7
    ensures r.IntDone? ==> 0 < r.used <= |s|
    ensures r.IntPartial? && n <= U32_MAX ==> n <= r.n <= U32_MAX
    ensures r.IntDone? && n <= U32_MAX ==> n <= r.n <= U32_MAX
    decreases |s|
  {
    if s == [] then IntPartial(n, shift) else
    var r := IntByte(n, shift, s[0], prefix);
    if r.IntPartial? then
      var q := DecodeInt(r.n, r.shift, s[1..], prefix);
      if q.IntDone? then q.(used := q.used + 1) else q
    else r
  }

  /** Resuming from the saved pair loses nothing: two reads equal one read of the concatenation. */
  lemma {:induction false} DecodeResumes(n: nat, shift: nat, s: Bytes, t: Bytes, prefix: nat)
    requires 4 <= prefix <= 7
    ensures DecodeInt(n, shift, s + t, prefix) ==
            match DecodeInt(n, shift, s, prefix)
            case IntError => IntError
            case IntDone(m, used) => IntDone(m, used)
            case IntPartial(m, sh) =>
              match DecodeInt(m, sh, t, prefix)
              case IntDone(v, used) => IntDone(v, |s| + used)
              case q => q
    decreases |s|
  {
    if s == [] {
      assert s + t == t;
    } else {
      assert (s + t)[0] == s[0] && (s + t)[1..] == s[1..] + t;
      var r := IntByte(n, shift, s[0], prefix);
      if r.IntPartial? {
        DecodeResumes(r.n, r.shift, s[1..], t, prefix);
      }
    }
  }

  lemma ShlSplit(m: nat, shift: nat)
    ensures Shl(m, shift) == Shl(m % 128, shift) + Shl(m / 128, shift + 7)
  {
    ShlIsScaling(m, shift);
    ShlIsScaling(m % 128, shift);
    ShlIsScaling(m / 128, shift + 7);
    Pow2Add7(shift);
    var p := Pow2(shift);
    calc {
      m * p;
      { assert m == m % 128 + 128 * (m / 128); }
      (m % 128 + 128 * (m / 128)) * p;
      (m % 128) * p + (m / 128) * (128 * p);
    }
  }

  lemma ShlBig(m: nat, shift: nat)
    requires shift >= 32 && m > 0
    ensures Shl(m, shift) > U32_MAX
  {
    ShlIsScaling(m, shift);
    Pow2Of32();
    Pow2Monotone(32, shift);
    assert m * Pow2(shift) >= Pow2(shift);
  }

  lemma {:induction false} TailDecodes(acc: nat, shift: nat, m: nat, rest: Bytes, prefix: nat)
    requires 4 <= prefix <= 7
    requires 0 < acc <= U32_MAX
    requires shift == 0 || m > 0
    ensures DecodeInt(acc, shift, Tail(m) + rest, prefix) ==
            if acc + Shl(m, shift) <= U32_MAX then IntDone(acc + Shl(m, shift), |Tail(m)|) else IntError
    decreases m
  {
    var s := Tail(m) + rest;
    ShrBelow(U32_MAX, m % 128, shift);
    ShlSplit(m, shift);
    if shift >= 32 {
      ShlBig(m, shift);
    }
    if m < 128 {
      assert s[0] == m;
      assert m % 128 == m;
    } else {
      assert s[0] == 128 + m % 128;
      assert s[1..] == Tail(m / 128) + rest;
      if ContinueByte(acc, shift, s[0]).IntPartial? {
        TailDecodes(acc + Shl(m % 128, shift), shift + 7, m / 128, rest, prefix);
      }
    }
  }

  /**
   * The decoder inverts the encoder for every value up to 2^32-1, whatever follows on the wire,
   * and it rejects the encoding of every larger value.
   */
  lemma IntRoundTrip(high: nat, n: nat, prefix: nat, rest: Bytes)
    requires PrefixOk(prefix, high)
    ensures DecodeInt(0, 0, EncodeInt(high, n, prefix) + rest, prefix) ==
            if n <= U32_MAX then IntDone(n, |EncodeInt(high, n, prefix)|) else IntError
  {
    var k := Radix(prefix) - 1;
    HighRoom(high, prefix, Min(n, k));
    var s := EncodeInt(high, n, prefix) + rest;
    if n < k {
      assert s[0] == high + n;
      assert LowBits(s[0], prefix) == n;
    } else {
      assert s[0] == high + k;
      assert LowBits(s[0], prefix) == k;
      assert s[1..] == Tail(n - k) + rest;
      TailDecodes(k, 0, n - k, rest, prefix);
    }
  }

  /** Encoded length, as the emitters size their scratch buffer with it. */
  function CountEncodedLength(n: nat, prefix: nat): (len: nat)
    requires 4 <= prefix <= 7
  {
    var k := Radix(prefix) - 1;
    if n < k then 1 else 1 + |Tail(n - k)|
  }

  lemma {:induction false} TailLength(n: nat, j: nat)
    requires n < Pow2(7 * j) && j >= 1
    ensures |Tail(n)| <= j
    decreases j
  {
    Pow2Add7(7 * (j - 1));
    assert 7 * j == 7 * (j - 1) + 7;
    if j == 1 {
      assert Pow2(0) == 1;
    } else if n >= 128 {
      TailLength(n / 128, j - 1);
    }
  }

  /** The 16-byte scratch buffer of the emitters is always long enough for a 64-bit value. */
  lemma ScratchBufferSuffices(n: nat, prefix: nat)
    requires 4 <= prefix <= 7 && n < TWO64
    ensures CountEncodedLength(n, prefix) <= 11
  {
    Pow2Of64();
    Pow2Monotone(64, 70);
    var k := Radix(prefix) - 1;
    if n >= k {
      TailLength(n - k, 10);
    }
  }

  /** Every 32-bit value takes at most six bytes. */
  lemma SixBytes(n: nat, prefix: nat)
    requires 4 <= prefix <= 7 && n < TWO32
    ensures CountEncodedLength(n, prefix) <= 6
  {
    Pow2Of32();
    Pow2Monotone(32, 35);
    var k := Radix(prefix) - 1;
    if n >= k {
      TailLength(n - k, 5);
    }
  }

  /** Every value below 2^28 takes at most five bytes. */
  lemma FiveBytes(n: nat, prefix: nat)
    requires 4 <= prefix <= 7 && n < 0x1000_0000
    ensures CountEncodedLength(n, prefix) <= 5
  {
    Pow2Add(14, 14);
    Pow2Add(7, 7);
    assert Pow2(7) == 128;
    var k := Radix(prefix) - 1;
    if n >= k {
      TailLength(n - k, 4);
    }
  }

  /** `encode_length`: writes the encoding over buf, whose first byte holds the representation bits. */
  method EncodeLength(buf: array<byte>, n: nat, prefix: nat) returns (len: nat)
    requires 4 <= prefix <= 7
    requires CountEncodedLength(n, prefix) <= buf.Length
    requires buf.Length > 0 && PrefixOk(prefix, buf[0])
    modifies buf
    ensures len == CountEncodedLength(n, prefix)
    ensures buf[..len] == EncodeInt(old(buf[0]), n, prefix)
    ensures buf[len..] == old(buf[..])[len..]
  {
    ghost var high := buf[0];
    var k := Radix(prefix) - 1;
    HighRoom(high, prefix, Min(n, k));
    if n < k {
      buf[0] := buf[0] + n;
      return 1;
    }
    buf[0] := buf[0] + k;
    var m: nat, i: nat := n - k, 1;
    while m >= 128
      invariant m >= 0 && 1 <= i && i + |Tail(m)| == CountEncodedLength(n, prefix)
      invariant buf[0] == high + k
      invariant buf[1..i] + Tail(m) == Tail(n - k)
      invariant forall j :: i <= j < buf.Length ==> buf[j] == old(buf[j])
    {
      ghost var before := buf[1..i];
      buf[i] := 128 + m % 128;
      assert buf[1..i + 1] == before + [128 + m % 128];
      assert before + Tail(m) == (before + [128 + m % 128]) + Tail(m / 128);
      i, m := i + 1, m / 128;
    }
    ghost var before := buf[1..i];
    buf[i] := m;
    len := i + 1;
    assert buf[1..len] == before + [m];
    assert buf[..len] == [buf[0]] + buf[1..len];
    assert buf[len..] == old(buf[..])[len..];
  }

  /**
   * `decode_length`: reads input[start..last) from the saved pair.  `out`, `shiftOut` and `fin` are the
   * C function's out-parameters; `rv` is -1 on error, else the number of bytes read.
   */
  method DecodeLength(initial: nat, shift: nat, input: Bytes, start: nat, last: nat, prefix: nat)
    returns (rv: int, out: nat, shiftOut: nat, fin: bool)
    requires 4 <= prefix <= 7
    requires start < last <= |input|
    requires initial <= U32_MAX && (initial == 0 ==> shift == 0)
    ensures match DecodeInt(initial, shift, input[start..last], prefix)
            case IntError => rv == -1
            case IntPartial(n, sh) => rv == last - start && out == n && shiftOut == sh && !fin
            case IntDone(n, used) => rv == used && out == n && fin
  {
    ghost var all := input[start..last];
    var k := Radix(prefix) - 1;
    var n, pos, sh := initial, start, shift;
    out, shiftOut, fin := 0, 0, false;
    if n == 0 {
      if LowBits(input[pos], prefix) != k {
        return 1, LowBits(input[pos], prefix), 0, true;
      }
      n := k;
      pos := pos + 1;
      assert all[1..] == input[pos..last];
      if pos == last {
        return pos - start, n, 0, false;
      }
    }
    ghost var goal := DecodeInt(initial, shift, all, prefix);
    while pos != last
      invariant start <= pos <= last && 0 < n <= U32_MAX
      invariant goal == match DecodeInt(n, sh, input[pos..last], prefix)
                        case IntDone(v, used) => IntDone(v, pos - start + used)
                        case q => q
    {
      var add := input[pos] % 128;
      assert input[pos..last][1..] == input[pos + 1..last];
      if sh >= 32 || Shr(U32_MAX, sh) < add {
        return -1, 0, 0, false;
      }
      add := Shl(add, sh);
      if U32_MAX - add < n {
        return -1, 0, 0, false;
      }
      n := n + add;
      if input[pos] < 128 {
        return pos + 1 - start, n, sh, true;
      }
      pos, sh := pos + 1, sh + 7;
    }
    assert input[pos..last] == [];
    return pos - start, n, sh, false;
  }
}
