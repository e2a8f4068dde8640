/** Quotients and remainders, where the solver needs telling. */
module Arithmetic {

  lemma Scaled(m: nat, d: int)
    ensures d >= 1 ==> m * d >= m
    ensures d <= -1 ==> m * d + m <= 0
    ensures d <= 0 ==> m * d <= 0
  {
    assert m * (d + 1) == m * d + m && m * (d - 1) == m * d - m;
  }

  lemma Quotient(x: int, q: int, r: int, m: nat)
    requires m > 0 && x == m * q + r && 0 <= r < m
    ensures x / m == q && x % m == r
  {
    assert m * (x / m - q) == r - x % m;
    Scaled(m, x / m - q);
  }

  lemma ModOfMultiple(i: nat, p: nat, c: nat)
    requires p > 0 && c > 0
    ensures p * c > 0 && i % (p * c) % p == i % p
  {
    Scaled(p, c);
    var n := p * c;
    var q, w := i / n, i % n;
    assert p * (c * q + w / p) == p * (c * q) + p * (w / p);
    assert p * (c * q) == n * q;
    Quotient(i, c * q + w / p, w % p, p);
  }

  /** Numbers less than n apart differ modulo n. */
  lemma Apart(i: nat, j: nat, n: nat)
    requires i < j < i + n
    ensures i % n != j % n
  {
    assert j - i == n * (j / n - i / n) + j % n - i % n;
    Scaled(n, j / n - i / n);
  }

  function Pow2(k: nat): (p: nat)
    ensures p > 0
  {
    if k == 0 then 1 else 2 * Pow2(k - 1)
  }

  lemma {:induction false} Pow2Grows(a: nat, b: nat)
    requires a < b
    ensures Pow2(a) < Pow2(b)
    decreases b
  {
    if a + 1 < b {
      Pow2Grows(a, b - 1);
    }
  }

  lemma {:induction false} Pow2Sum(a: nat, b: nat)
    ensures Pow2(a + b) == Pow2(a) * Pow2(b)
    decreases b
  {
    if b > 0 {
      Pow2Sum(a, b - 1);
      assert Pow2(a) * (2 * Pow2(b - 1)) == 2 * (Pow2(a) * Pow2(b - 1));
    }
  }

  lemma Pow2Word()
    ensures Pow2(0) == 1 && Pow2(32) == 0x1_0000_0000 && Pow2(33) == 0x2_0000_0000
  {
    assert Pow2(4) == 16;
    Pow2Sum(4, 4);
    Pow2Sum(8, 8);
    Pow2Sum(16, 16);
  }
}
