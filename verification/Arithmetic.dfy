/** Facts about division that the solver does not find by itself. */
module Arithmetic {

  lemma MultipleGrows(d: int, n: nat)
    requires d >= 1
    ensures d * n >= n
  {
    assert (d - 1) * n >= 0;
  }

  lemma QuotientAndRemainder(m: nat, n: nat, q: nat, k: nat)
    requires k < n && m == q * n + k
    ensures m / n == q && m % n == k
  {
    var d := m / n - q;
    assert d * n == k - m % n;
    if d >= 1 { MultipleGrows(d, n); }
    if d <= -1 { MultipleGrows(-d, n); }
  }
}
