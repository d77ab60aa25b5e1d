/** Rounding of an exact quotient to the nearest integer, halves away from zero. */
module Rounding {

  /**
   * The integer nearest to n / d; a value exactly half-way between two
   * integers goes to the one farther from zero, as Go's math.Round does.
   */
  function RoundHalfAway(n: int, d: int): (r: int)
    requires d > 0
    ensures 2 * n - d <= 2 * d * r <= 2 * n + d
    ensures 2 * d * r == 2 * n - d ==> n < 0
    ensures 2 * d * r == 2 * n + d ==> n > 0
  {
    if n >= 0 then
      DivBounds(2 * n + d, 2 * d);
      (2 * n + d) / (2 * d)
    else
      DivBounds(-2 * n + d, 2 * d);
      -((-2 * n + d) / (2 * d))
  }

  /** The quotient of a by b is the largest q with b * q <= a. */
  lemma DivBounds(a: int, b: int)
    requires b > 0
    ensures b * (a / b) <= a < b * (a / b) + b
  {
  }

  /** Rounding keeps the order of the values rounded. */
  lemma {:induction false} RoundHalfAwayMonotone(n1: int, n2: int, d: int)
    requires d > 0 && n1 <= n2
    ensures RoundHalfAway(n1, d) <= RoundHalfAway(n2, d)
  {
    var r1, r2 := RoundHalfAway(n1, d), RoundHalfAway(n2, d);
    if r1 > r2 {
      assert 2 * d * r1 >= 2 * d * r2 + 2 * d by {
        assert r1 >= r2 + 1;
        MulMonotone(2 * d, r2 + 1, r1);
      }
      assert false;
    }
  }

  lemma MulMonotone(k: int, a: int, b: int)
    requires k >= 0 && a <= b
    ensures k * a <= k * b
  {
  }
}
