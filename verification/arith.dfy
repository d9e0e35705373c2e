/** Sign facts about products of reals that the solver does not find alone. */
module RealFacts {

  lemma PositiveProduct(a: real, b: real)
    requires a > 0.0 && b > 0.0
    ensures a * b > 0.0
  {
  }

  lemma NonNegativeProduct(a: real, b: real)
    requires a >= 0.0 && b >= 0.0
    ensures a * b >= 0.0
  {
  }

  /** Multiplying by a non-negative factor keeps the order. */
  lemma ScaleMonotone(k: real, x: real, y: real)
    requires k >= 0.0 && x <= y
    ensures k * x <= k * y
  {
    NonNegativeProduct(k, y - x);
  }

  lemma QuotientTimesDivisor(c: real, d: real)
    requires d != 0.0
    ensures (c / d) * d == c
  {
  }

  lemma QuotientPositive(q: real, d: real, c: real)
    requires d > 0.0 && c > 0.0 && q * d == c
    ensures q > 0.0
  {
    if q <= 0.0 {
      NonNegativeProduct(-q, d);
    }
  }
}
