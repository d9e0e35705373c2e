/** The half-kW sizing rule shared by both estimators: round the raw
    requirement to the nearest 0.5 kW (ties to an even number of half
    steps, as Python's `round` does) and never go below 0.5 kW. */
module Sizing {
  import opened Rounding

  /** Smallest system the estimator recommends, in kW. */
  const MinSystemKw: real := 0.5

  /** A size the estimator can recommend: at least 0.5 kW and a whole
      number of half-kW steps. */
  predicate IsHalfKwStep(kw: real)
  {
    kw >= MinSystemKw && (2.0 * kw).Floor as real == 2.0 * kw
  }

  function Max(a: real, b: real): real
  {
    if a >= b then a else b
  }

  /** `max(0.5, round(raw * 2) / 2)` for a raw requirement in kW. */
  function RecommendedKw(rawKw: real): (kw: real)
    ensures IsHalfKwStep(kw)
    ensures kw == MinSystemKw <==> rawKw < 0.75
    ensures kw > MinSystemKw ==> kw - 0.25 <= rawKw <= kw + 0.25
    ensures kw > MinSystemKw && (rawKw == kw - 0.25 || rawKw == kw + 0.25) ==>
              (2.0 * kw).Floor % 2 == 0
  {
    var n := RoundHalfEven(rawKw * 2.0);
    assert n <= 1 <==> rawKw * 2.0 < 1.5;
    Max(MinSystemKw, n as real / 2.0)
  }

  /** Above the 0.5 kW floor, the recommendation is the one half-kW step
      nearest the raw requirement, a tie going to an even step count. */
  lemma RecommendedKwIsNearestStep(rawKw: real, steps: int)
    requires steps >= 2
    requires IsRoundHalfEven(rawKw * 2.0, steps)
    ensures RecommendedKw(rawKw) == steps as real / 2.0
  {
    RoundHalfEvenUnique(rawKw * 2.0, steps);
  }

  /** A larger requirement never yields a smaller recommendation. */
  lemma RecommendedKwMonotone(a: real, b: real)
    requires a <= b
    ensures RecommendedKw(a) <= RecommendedKw(b)
  {
    RoundHalfEvenMonotone(a * 2.0, b * 2.0);
  }

  /** The half-even tie: a raw 1.25 kW (2.5 half steps) becomes 1.0 kW, not 1.5 kW. */
  lemma TieRoundsToEvenStep()
    ensures RecommendedKw(1.25) == 1.0
    ensures RecommendedKw(1.75) == 2.0
  {
    RecommendedKwIsNearestStep(1.25, 2);
    RecommendedKwIsNearestStep(1.75, 4);
  }
}
