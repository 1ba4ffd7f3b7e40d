/** Facts about products and quotients that the solver does not find by itself. */
module Arithmetic {

  /** More of the same is at least one more of it. */
  lemma {:induction false} Scale(a: nat, b: nat, d: nat)
    ensures a <= b ==> a * d <= b * d
    ensures a < b ==> a * d + d <= b * d
    decreases b
  {
    if a < b {
      Scale(a, b - 1, d);
      assert b * d == (b - 1) * d + d;
    }
  }

  lemma QuotientIs(x: nat, d: nat, q: nat, r: nat)
    requires d > 0 && x == q * d + r && r < d
    ensures x / d == q
  {
    Scale(q, x / d, d);
    Scale(x / d, q, d);
  }
}
