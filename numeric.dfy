/** Python's numeric conversions on reals: `round` (half to even) and `int` (truncation). */
module Numeric {

  /** Python `round(x)`: the nearest integer, ties to the even one. */
  function RoundHalfEven(x: real): (r: int)
    ensures -(1.0 / 2.0) <= x - r as real <= 1.0 / 2.0
    ensures x - r as real == 1.0 / 2.0 || r as real - x == 1.0 / 2.0 ==> r % 2 == 0
  {
    var f := x.Floor;
    var frac := x - f as real;
    if frac < 1.0 / 2.0 then f
    else if frac > 1.0 / 2.0 then f + 1
    else if f % 2 == 0 then f else f + 1
  }

  /** Python `int(x)` for a non-negative real: truncation, which is the floor there. */
  function Trunc(x: real): (r: nat)
    requires x >= 0.0
    ensures r as real <= x < r as real + 1.0
  {
    x.Floor
  }

  /** Python `int(x)` for any real: truncation toward zero. */
  function TruncToZero(x: real): (r: int)
    ensures x >= 0.0 ==> 0 <= r && r as real <= x < r as real + 1.0
    ensures x < 0.0 ==> r <= 0 && r as real - 1.0 < x <= r as real
  {
    if x >= 0.0 then x.Floor else -((-x).Floor)
  }

  /** Truncation of non-negative numbers keeps their order. */
  lemma TruncMonotone(x: real, y: real)
    requires 0.0 <= x <= y
    ensures TruncToZero(x) <= TruncToZero(y)
  {
  }

  /** Python `round(x, 5)` on a coordinate. */
  function Round5(x: real): real
  {
    RoundHalfEven(x * 100000.0) as real / 100000.0
  }

  function Max(a: real, b: real): (r: real)
    ensures r >= a && r >= b && (r == a || r == b)
  {
    if a >= b then a else b
  }

  function Min(a: real, b: real): (r: real)
    ensures r <= a && r <= b && (r == a || r == b)
  {
    if a <= b then a else b
  }

  /** A percentage of a positive base, multiplied back by the base, gives the part times 100. */
  lemma PercentTimesBase(part: real, base: real)
    requires base > 0.0
    ensures part / base * 100.0 * base == part * 100.0
  {
  }
}
