/** Facts about natural-number division that the solver does not find on its own. */
module Arith {
  /** `q` is the quotient of `x` by `d` when `x` lies in `q`'s band of width `d`. */
  lemma QuotientIs(x: nat, d: nat, q: nat)
    requires d > 0 && q * d <= x < q * d + d
    ensures x / d == q && x % d == x - q * d
  {
    var q' := x / d;
    assert q' * d <= x < q' * d + d;
    MulLe(q + 1, q', d);
    MulLe(q' + 1, q, d);
  }

  lemma DivMonotone(a: nat, b: nat, d: nat)
    requires a <= b && d > 0
    ensures a / d <= b / d
  {
    var qa, qb := a / d, b / d;
    assert qa * d <= a && b < qb * d + d;
    MulLe(qb + 1, qa, d);
  }

  lemma {:induction false} MulLe(x: nat, y: nat, d: nat)
    ensures x <= y ==> x * d <= y * d
    decreases y
  {
    if x < y {
      MulLe(x, y - 1, d);
      assert (y - 1) * d + d == y * d;
    }
  }
}
