/** Rounding of exact amounts to whole units. */
module Rounding {
  /** Python's `round` and `Decimal.quantize` by default: to nearest, ties to even. */
  function HalfEven(x: real): (r: int)
    ensures -0.5 <= r as real - x <= 0.5
    ensures r as real - x == 0.5 || r as real - x == -0.5 ==> r % 2 == 0
  {
    var f := x.Floor;
    var over := x - f as real;
    if over < 0.5 || (over == 0.5 && f % 2 == 0) then f else f + 1
  }

  /** ROUND_HALF_UP on amounts that are not negative. */
  function HalfUp(x: real): (r: int)
    ensures -0.5 < r as real - x <= 0.5
  {
    (x + 0.5).Floor
  }

  /** Dollars to cents. */
  function Cents(usd: real): int { HalfEven(usd * 100.0) }
}
