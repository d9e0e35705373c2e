/** Integer conversions of real numbers, as the estimator uses them:
    Python's `round` (half to even), numpy's `ceil` and Python's `int`
    (truncation toward zero). All arguments are exact reals. */
module Rounding {

  /** The least integer not below `x` (numpy `ceil`). */
  function Ceil(x: real): (n: int)
    ensures x <= n as real < x + 1.0
  {
    -((-x).Floor)
  }

  /** Python's `int(x)` on a float: drops the fraction, toward zero. */
  function Trunc(x: real): (n: int)
    ensures 0.0 <= x ==> 0 <= n && n as real <= x < n as real + 1.0
    ensures x < 0.0 ==> n <= 0 && n as real - 1.0 < x <= n as real
  {
    if x >= 0.0 then x.Floor else -((-x).Floor)
  }

  /** Python 3 `round(x)`: the nearest integer, a tie going to the even neighbour. */
  predicate IsRoundHalfEven(x: real, n: int)
  {
    && n as real - 0.5 <= x <= n as real + 0.5
    && ((x == n as real - 0.5 || x == n as real + 0.5) ==> n % 2 == 0)
  }

  function RoundHalfEven(x: real): (n: int)
    ensures IsRoundHalfEven(x, n)
  {
    var f := x.Floor;
    var d := x - f as real;
    if d < 0.5 then f
    else if d > 0.5 then f + 1
    else if f % 2 == 0 then f
    else f + 1
  }

  /** Half-to-even rounding has exactly one answer. */
  lemma RoundHalfEvenUnique(x: real, m: int)
    requires IsRoundHalfEven(x, m)
    ensures RoundHalfEven(x) == m
  {
  }

  /** Rounding never reverses the order of its arguments. */
  lemma RoundHalfEvenMonotone(x: real, y: real)
    requires x <= y
    ensures RoundHalfEven(x) <= RoundHalfEven(y)
  {
  }

  /** The tie cases the estimator's sizing meets: 2.5 rounds down to 2, 3.5 up to 4. */
  lemma RoundHalfEvenTies()
    ensures RoundHalfEven(2.5) == 2
    ensures RoundHalfEven(3.5) == 4
    ensures RoundHalfEven(1.5) == 2
    ensures RoundHalfEven(0.5) == 0
  {
    RoundHalfEvenUnique(2.5, 2);
    RoundHalfEvenUnique(3.5, 4);
    RoundHalfEvenUnique(1.5, 2);
    RoundHalfEvenUnique(0.5, 0);
  }
}
