/** Facts about division and remainder by a variable modulus. */
module Modular {
  lemma MulSub(a: int, b: int, m: int)
    ensures (a - b) * m == a * m - b * m
  {
  }

  lemma MulAtLeast(k: int, m: nat)
    requires k >= 1
    ensures k * m >= m
  {
  }

  lemma QuotientUnique(m: nat, q: int, r: int, p: int, s: int)
    requires 0 <= r < m && 0 <= s < m && q * m + r == p * m + s
    ensures q == p && r == s
  {
    MulSub(q, p, m);
    MulSub(p, q, m);
    if q > p {
      MulAtLeast(q - p, m);
    } else if p > q {
      MulAtLeast(p - q, m);
    }
  }

  lemma DivMod(a: int, m: nat)
    requires m > 0
    ensures a == (a / m) * m + a % m && 0 <= a % m < m
  {
  }

  lemma ModUnique(a: int, m: nat, q: int, r: nat)
    requires r < m && a == q * m + r
    ensures a % m == r
  {
    DivMod(a, m);
    QuotientUnique(m, a / m, a % m, q, r);
  }

  lemma ModOfMultiple(a: int, k: nat, m: nat, n: nat)
    requires k > 0 && m > 0 && n == k * m
    ensures n > 0 && a % n % m == a % m
  {
    MulAtLeast(k, m);
    var q, r := a / n, a % n;
    DivMod(a, n);
    DivMod(r, m);
    assert q * n == (q * k) * m;
    MulSub(q * k, -(r / m), m);
    ModUnique(a, m, q * k + r / m, r % m);
  }

  /** Adding a multiple of the modulus changes no remainder. */
  lemma ModAddMultiple(a: int, k: int, m: nat)
    requires m > 0
    ensures (a + k * m) % m == a % m
  {
    DivMod(a, m);
    MulSub(a / m, -k, m);
    ModUnique(a + k * m, m, a / m + k, a % m);
  }

  /** Values less than m apart have different remainders. */
  lemma ModDiffers(a: int, b: int, m: nat)
    requires a < b < a + m
    ensures a % m != b % m
  {
    DivMod(a, m);
    DivMod(b, m);
    if a % m == b % m {
      MulSub(b / m, a / m, m);
      NoSmallMultiple(b / m - a / m, m);
    }
  }

  lemma NoSmallMultiple(k: int, m: nat)
    ensures k * m <= 0 || k * m >= m
  {
    if k >= 1 {
      MulAtLeast(k, m);
    }
  }
}
