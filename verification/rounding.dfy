/**
 * The two rounding operations of the system, stated on exact real numbers:
 * JavaScript's Math.round (nearest integer, halves toward +infinity) and
 * Python's round(x, n) (nearest multiple of 10^-n, halves to the even
 * neighbour).  Binary floating point is not modelled.
 */
module Rounding {

  /** Math.round: the nearest integer, a half rounds up. */
  function MathRound(x: real): (n: int)
    ensures x - 0.5 < n as real <= x + 0.5
  {
    (x + 0.5).Floor
  }

  lemma MathRoundMonotone(x: real, y: real)
    requires x <= y
    ensures MathRound(x) <= MathRound(y)
  {
  }

  /** Math.round leaves integers where they are. */
  lemma MathRoundOfInteger(k: int)
    ensures MathRound(k as real) == k
  {
  }

  /** The nearest integer, a half going to the even neighbour (Python's round). */
  function RoundHalfEven(x: real): (n: int)
    ensures x - 0.5 <= n as real <= x + 0.5
    ensures x.Floor <= n <= x.Floor + 1
    ensures x == x.Floor as real ==> n == x.Floor
    ensures x - x.Floor as real != 0.5 ==> x - 0.5 < n as real < x + 0.5
    ensures x - x.Floor as real == 0.5 ==> n % 2 == 0
  {
    var f := x.Floor;
    var frac := x - f as real;
    if frac < 0.5 then f
    else if frac > 0.5 then f + 1
    else if f % 2 == 0 then f
    else f + 1
  }

  lemma RoundHalfEvenMonotone(x: real, y: real)
    requires x <= y
    ensures RoundHalfEven(x) <= RoundHalfEven(y)
  {
  }

  /** round(x, 1): x rounded to the nearest tenth. */
  function RoundTenths(x: real): (r: real)
    ensures x - 0.05 <= r <= x + 0.05
    ensures (r * 10.0).Floor as real == r * 10.0
  {
    RoundHalfEven(x * 10.0) as real / 10.0
  }

  /** round(x, 2): x rounded to the nearest hundredth. */
  function RoundHundredths(x: real): (r: real)
    ensures x - 0.005 <= r <= x + 0.005
    ensures (r * 100.0).Floor as real == r * 100.0
  {
    RoundHalfEven(x * 100.0) as real / 100.0
  }

  lemma RoundTenthsMonotone(x: real, y: real)
    requires x <= y
    ensures RoundTenths(x) <= RoundTenths(y)
  {
    RoundHalfEvenMonotone(x * 10.0, y * 10.0);
  }

  /** A whole number of tenths is not moved by round(x, 1). */
  lemma RoundTenthsOfExact(k: int)
    ensures RoundTenths(k as real / 10.0) == k as real / 10.0
  {
    assert (k as real / 10.0) * 10.0 == k as real;
  }
}
