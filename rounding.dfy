/** Python 3's built-in `round(x)` on a number: the nearest integer, ties to the even one. */
module Rounding {

  function RoundHalfEven(x: real): (n: int)
    ensures x - 0.5 <= n as real <= x + 0.5
    ensures (n as real - x == 0.5 || x - n as real == 0.5) ==> n % 2 == 0
  {
    var f := x.Floor;
    var d := x - f as real;
    if d < 0.5 then f
    else if d > 0.5 then f + 1
    else if f % 2 == 0 then f else f + 1
  }

  /**
   * The two properties in RoundHalfEven's contract pin the result down: any
   * integer within 1/2 of x that is even whenever it is exactly 1/2 away is it.
   */
  lemma RoundHalfEvenUnique(x: real, m: int)
    requires x - 0.5 <= m as real <= x + 0.5
    requires (m as real - x == 0.5 || x - m as real == 0.5) ==> m % 2 == 0
    ensures m == RoundHalfEven(x)
  {
  }

  /** A non-negative number rounds to a non-negative integer. */
  lemma RoundHalfEvenNonNegative(x: real)
    requires x >= 0.0
    ensures RoundHalfEven(x) >= 0
  {
  }

  /** Ties go to the even neighbour, so halves do not always round up. */
  lemma RoundHalfEvenTies()
    ensures RoundHalfEven(0.5) == 0
    ensures RoundHalfEven(1.5) == 2
    ensures RoundHalfEven(2.5) == 2
    ensures RoundHalfEven(-0.5) == 0
  {
  }
}
