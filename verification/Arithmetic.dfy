/** Facts about division and remainder. */
module Arithmetic {

  lemma SmallMultiple(k: int, n: int, d: int)
    requires n > 0 && k * n == d && -n < d < n
    ensures k == 0 && d == 0
  {
    assert k >= 1 ==> k * n >= n;
    assert k <= -1 ==> k * n <= -n;
  }

  /** Quotient and remainder are unique. */
  lemma DivMod(k: nat, n: nat, r: nat)
    requires r < n
    ensures (k * n + r) / n == k && (k * n + r) % n == r
  {
    var x := k * n + r;
    assert x == x / n * n + x % n;
    SmallMultiple(k - x / n, n, x % n - r);
  }

  /** ... and determine the number. */
  lemma DivModEqual(j: nat, k: nat, n: nat)
    requires n > 0 && j / n == k / n && j % n == k % n
    ensures j == k
  {
    assert j == j / n * n + j % n && k == k / n * n + k % n;
  }

  /** Equal remainders stay equal when the same number is added. */
  lemma ModAdd(a: nat, b: nat, n: nat)
    requires n > 0
    ensures (a % n + b) % n == (a + b) % n
  {
    var x := a % n + b;
    Divided(a, n);
    Divided(x, n);
    RemainderOf(a, b, n, a / n, a % n, x / n, x % n);
  }

  lemma Divided(x: nat, n: nat)
    requires n > 0
    ensures x == x / n * n + x % n && 0 <= x % n < n && 0 <= x / n
  {}

  lemma RemainderOf(a: nat, b: nat, n: nat, j: nat, p: nat, k: nat, r: nat)
    requires a == j * n + p && p + b == k * n + r && r < n
    ensures (a + b) % n == r
  {
    Distribute(j, k, n);
    DivMod(j + k, n, r);
  }

  lemma Distribute(a: int, b: int, n: int)
    ensures a * n + b * n == (a + b) * n
  {}

  lemma FactorLess(a: nat, m: nat, n: nat)
    requires a * n < m * n
    ensures a < m
  {
    assert a >= m ==> (a - m) * n >= 0;
  }

  /** Row-major indices: from an index to its row ... */
  lemma SlotIndex(m: nat, n: nat, i: nat)
    requires i < m * n
    ensures n > 0 && i / n < m
  {
    assert n > 0 by { assert m * 0 == 0; }
    FactorLess(i / n, m, n) by { assert i == (i / n) * n + i % n; }
  }

  /** ... and from row and column to the index. */
  lemma PairIndex(m: nat, n: nat, a: nat, b: nat)
    requires a < m && b < n
    ensures a * n + b < m * n && (a * n + b) / n == a && (a * n + b) % n == b
  {
    assert (m - a - 1) * n >= 0;
    DivMod(a, n, b);
  }
}
