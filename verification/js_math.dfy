/**
 * The two JavaScript number operations the metrics generator relies on,
 * written over exact integers and reals: `Math.round` and the `%` operator.
 */
module JsMath {

  /** `Math.round`: the nearest integer, halves rounded towards +infinity. */
  function Round(x: real): (r: int)
    ensures x - 0.5 < r as real <= x + 0.5
  {
    (x + 0.5).Floor
  }

  /** Rounding an exact integer gives that integer back. */
  lemma RoundOfInteger(n: int)
    ensures Round(n as real) == n
  {
  }

  /** `Math.round` is monotone. */
  lemma RoundMonotone(x: real, y: real)
    requires x <= y
    ensures Round(x) <= Round(y)
  {
  }

  /**
   * JavaScript `a % b` on integers: the remainder of division truncated
   * towards zero, so it takes the sign of the dividend (unlike Dafny's `%`).
   */
  function Rem(a: int, b: int): (r: int)
    requires b != 0
    ensures a >= 0 ==> 0 <= r < Abs(b)
    ensures a < 0 ==> 0 < r + Abs(b) && r <= 0
  {
    var m := Abs(a) % Abs(b);
    if a >= 0 then m else -m
  }

  function Abs(x: int): nat {
    if x < 0 then -x else x
  }

  /** On non-negative dividends the JavaScript remainder agrees with Dafny's. */
  lemma RemOfNonNegative(a: int, b: int)
    requires a >= 0 && b > 0
    ensures Rem(a, b) == a % b
  {
  }

  /** Negating the dividend negates the remainder. */
  lemma RemOdd(a: int, b: int)
    requires b != 0
    ensures Rem(-a, b) == -Rem(a, b)
  {
  }

  /** A negative dividend gives a non-positive remainder, where Dafny's is positive. */
  lemma RemOfNegativeExample()
    ensures Rem(-4, 3) == -1
    ensures -4 % 3 == 2
  {
  }
}
