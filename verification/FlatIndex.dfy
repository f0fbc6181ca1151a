/** Row-major indices: a pair (a, i) with i below n is stored at a * n + i. */
module FlatIndex {
  lemma Grows(n: nat, a: nat, b: nat)
    requires a < b
    ensures a * n + n <= b * n
  {
    assert b * n == a * n + (b - a) * n;
    assert (b - a - 1) * n >= 0;
  }

  lemma Unique(n: nat, a: nat, i: nat, b: nat, j: nat)
    requires i < n && j < n && a * n + i == b * n + j
    ensures a == b && i == j
  {
    if a < b {
      Grows(n, a, b);
    } else if b < a {
      Grows(n, b, a);
    }
  }

  lemma Bound(n: nat, m: nat, a: nat, i: nat)
    requires a < m && i < n
    ensures a * n + i < m * n
  {
    Grows(n, a, m);
  }

  lemma Split(n: nat, a: nat, i: nat)
    requires i < n
    ensures (a * n + i) / n == a && (a * n + i) % n == i
  {
    var k := a * n + i;
    assert k == (k / n) * n + k % n;
    Unique(n, a, i, k / n, k % n);
  }

  lemma Same(n: nat, j: nat, k: nat)
    requires n > 0 && j / n == k / n && j % n == k % n
    ensures j == k
  {
    assert j == (j / n) * n + j % n && k == (k / n) * n + k % n;
  }

  lemma Join(n: nat, m: nat, k: nat)
    requires n > 0 && k < m * n
    ensures k / n < m && k % n < n && k == (k / n) * n + k % n
  {
    if m < k / n { Grows(n, m, k / n); }
  }
}
