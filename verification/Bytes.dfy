/** Bytes, 32- and 64-bit bounds and powers of two: the arithmetic vocabulary shared by every component. */
module Bytes {
  type byte = b: int | 0 <= b < 256

  type Bytes = seq<byte>

  datatype Option<+T> = None | Some(value: T)

  const U32_MAX: nat := 0xFFFF_FFFF
  const TWO32: nat := 0x1_0000_0000
  const TWO63: nat := 0x8000_0000_0000_0000
  const TWO64: nat := 0x1_0000_0000_0000_0000

  function Min(a: int, b: int): int {
    if a <= b then a else b
  }

  function Pow2(n: nat): (p: nat)
    ensures p > 0
  {
    if n == 0 then 1 else 2 * Pow2(n - 1)
  }

  lemma {:induction false} Pow2Add(a: nat, b: nat)
    ensures Pow2(a + b) == Pow2(a) * Pow2(b)
  {
    if b > 0 {
      Pow2Add(a, b - 1);
      assert Pow2(a + b) == 2 * Pow2(a + (b - 1));
    }
  }

  lemma Pow2Add7(n: nat)
    ensures Pow2(n + 7) == 128 * Pow2(n)
  {
    Pow2Add(n, 7);
    assert Pow2(7) == 128;
  }

  lemma {:induction false} Pow2Monotone(a: nat, b: nat)
    requires a <= b
    ensures Pow2(a) <= Pow2(b)
  {
    if a < b {
      Pow2Monotone(a, b - 1);
    }
  }

  lemma Pow2Of32()
    ensures Pow2(32) == TWO32
  {
    Pow2Add(8, 8);
    Pow2Add(16, 16);
    assert Pow2(8) == 256;
  }

  lemma Pow2Of64()
    ensures Pow2(64) == TWO64 && Pow2(63) == TWO63
  {
    Pow2Of32();
    Pow2Add(32, 32);
    assert Pow2(64) == 2 * Pow2(63);
  }

  /** a << s on unbounded values. */
  function Shl(a: nat, s: nat): nat {
    if s == 0 then a else 2 * Shl(a, s - 1)
  }

  /** a >> s. */
  function Shr(a: nat, s: nat): nat {
    if s == 0 then a else Shr(a, s - 1) / 2
  }

  lemma {:induction false} ShlIsScaling(a: nat, s: nat)
    ensures Shl(a, s) == a * Pow2(s)
  {
    if s > 0 {
      ShlIsScaling(a, s - 1);
    }
  }

  /** The overflow test `(limit >> s) < a` says exactly that `a << s` exceeds the limit. */
  lemma {:induction false} ShrBelow(limit: nat, a: nat, s: nat)
    ensures Shr(limit, s) < a <==> Shl(a, s) > limit
  {
    if s > 0 {
      ShrBelow(limit / 2, a, s - 1);
      ShrHalf(limit, s - 1);
    }
  }

  lemma {:induction false} ShrHalf(limit: nat, s: nat)
    ensures Shr(limit / 2, s) == Shr(limit, s) / 2
  {
    if s > 0 {
      ShrHalf(limit, s - 1);
    }
  }
}
