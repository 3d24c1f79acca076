/** Facts about remainders that the solver does not find unaided: the ring buffer
    stores position `j` of its history in cell `j % n`. */
module Residue {

  lemma Multiple(d: int, n: nat)
    ensures d >= 1 ==> d * n >= n
    ensures d <= -1 ==> d * n + n <= 0
  {
    assert (d - 1) * n == d * n - n;
    assert (d + 1) * n == d * n + n;
  }

  lemma Unique(n: nat, q: int, r: int, a: int)
    requires n > 0 && 0 <= r < n && a == q * n + r
    ensures a % n == r
  {
    var d := a / n - q;
    assert d * n == (a / n) * n - q * n;
    Multiple(d, n);
    assert d == 0;
  }

  lemma Shift(n: nat, a: int)
    requires n > 0
    ensures (a + n) % n == a % n
  {
    assert a + n == (a / n + 1) * n + a % n;
    Unique(n, a / n + 1, a % n, a + n);
  }

  // The remainder of a sum that stays within one turn of the remainder of its first part.
  lemma Advance(n: nat, a: nat, k: nat)
    requires n > 0 && k <= n
    ensures (a + k) % n == if a % n + k < n then a % n + k else a % n + k - n
  {
    assert a == (a / n) * n + a % n;
    if a % n + k < n {
      Unique(n, a / n, a % n + k, a + k);
    } else if k < n || a % n < n {
      assert a + k == (a / n + 1) * n + (a % n + k - n);
      Unique(n, a / n + 1, a % n + k - n, a + k);
    }
  }

  // Two positions less than one turn apart share a cell only when they are the same.
  lemma Distinct(n: nat, a: nat, b: nat)
    requires n > 0 && a < b < a + n
    ensures a % n != b % n
  {
    Advance(n, a, b - a);
  }

  lemma Offset(n: nat, a: nat, k: nat)
    requires n > 0 && k <= n
    ensures (a % n + k) % n == (a + k) % n
  {
    Advance(n, a, k);
    Unique(n, 0, a % n, a % n);
    Advance(n, a % n, k);
  }
}
