/** Facts about division that the solver does not find by itself. */
module Arithmetic {
  /** Quotient and remainder are unique. */
  lemma DivModIs(x: int, m: nat, q: int, r: nat)
    requires m > 0 && r < m && x == q * m + r
    ensures x / m == q && x % m == r
  {
    var d := x / m - q;
    assert d * m == (x / m) * m - q * m;
    assert 0 - m < d * m < m;
    BetweenMultiples(d, m);
  }

  lemma BetweenMultiples(d: int, m: int)
    requires -m < d * m < m
    ensures d == 0
  {
  }

  /** Reducing a summand first does not change a remainder. */
  lemma ModOfSum(a: nat, b: nat, m: nat)
    requires m > 0
    ensures (a + b) % m == (a % m + b) % m
  {
    var q, q' := a / m, (a % m + b) / m;
    assert a == q * m + a % m;
    assert a % m + b == q' * m + (a % m + b) % m;
    assert (q + q') * m == q * m + q' * m;
    DivModIs(a + b, m, q + q', (a % m + b) % m);
  }
}
