/** Python's `round`, `min` and `max`, on exact numbers. */
module Rounding {
  function Min(x: real, y: real): real { if x <= y then x else y }

  function Max(x: real, y: real): real { if x >= y then x else y }

  /** The nearest integer, ties to the even one. */
  function Nearest(x: real): int {
    var floor := x.Floor;
    var rest := x - floor as real;
    if rest > 0.5 || (rest == 0.5 && floor % 2 == 1) then floor + 1 else floor
  }

  lemma NearestMonotone(x: real, y: real)
    requires x <= y
    ensures Nearest(x) <= Nearest(y)
  {
  }

  /** `round` to an integer: the nearest, and of two as near the even one. */
  lemma NearestIs(x: real, n: int)
    ensures n == Nearest(x) <==>
      -0.5 <= n as real - x <= 0.5 && (n as real - x == 0.5 || n as real - x == -0.5 ==> n % 2 == 0)
  {
    var floor := x.Floor;
    if -0.5 <= n as real - x <= 0.5 {
      assert n == floor || n == floor + 1;
    }
  }

  lemma NearestWithin(x: real)
    ensures -0.5 <= Nearest(x) as real - x <= 0.5
    ensures x == x.Floor as real ==> Nearest(x) as real == x
  {
  }
}
