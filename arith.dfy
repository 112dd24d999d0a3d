/** Helper facts about the real arithmetic of weighted sums and weight
    renormalisation, kept as small lemmas so that the solver sees each product or
    quotient as a single term. */
module Arith {
  /** A weight times a signal in [0, 1] lies between 0 and the weight. */
  lemma WeightedSignal(w: real, x: real)
    requires 0.0 <= w && 0.0 <= x <= 1.0
    ensures 0.0 <= w * x <= w
  {
  }

  /** Two parts bounded by two weights that sum to 1 add up to at most 1. */
  lemma SharesBound(a: real, b: real, p: real, q: real)
    requires 0.0 <= p <= a && 0.0 <= q <= b && a + b == 1.0
    ensures 0.0 <= p + q <= 1.0
  {
  }

  lemma DivByOne(a: real)
    ensures a / 1.0 == a
  {
  }

  /** Dividing two numbers by their positive sum gives shares that add up to one. */
  lemma Shares(a: real, b: real, s: real)
    requires s > 0.0 && a + b == s
    ensures a / s + b / s == 1.0
  {
    assert a / s + b / s == (a + b) / s;
  }

  /** Dividing by the same positive number keeps proportions, and non-negative parts of
      a sum no larger than `s` land in [0, 1]. */
  lemma Proportions(a: real, b: real, s: real)
    requires s > 0.0
    ensures (a / s) * b == (b / s) * a
    ensures 0.0 <= a && 0.0 <= b && a + b <= s ==> 0.0 <= a / s <= 1.0 && 0.0 <= b / s <= 1.0
  {
    var p, q := a / s, b / s;
    assert p * s == a && q * s == b;
    assert p * b == p * (q * s) == q * (p * s) == q * a;
  }
}
