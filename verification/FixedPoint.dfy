/** Fixed-point arithmetic on integers that stand for decimals, as bcmath and
    PHP's `round` compute it. */
module FixedPoint {

  /** bcdiv and bcmul drop the digits past the requested scale, toward zero. */
  function TruncDiv(a: int, b: int): (q: int)
    requires b > 0
    ensures a >= 0 ==> 0 <= q && b * q <= a < b * q + b
    ensures a <= 0 ==> q <= 0 && b * q - b < a <= b * q
  {
    if a >= 0 then a / b else -((-a) / b)
  }

  /** PHP's `round` to a whole number of units: to the nearest, a half goes away
      from zero. */
  function RoundDiv(a: int, b: int): (q: int)
    requires b > 0
    ensures a >= 0 ==> 0 <= q && 2 * b * q - b <= 2 * a < 2 * b * q + b
    ensures a <= 0 ==> q <= 0 && 2 * b * q - b < 2 * a <= 2 * b * q + b
  {
    if a >= 0 then (2 * a + b) / (2 * b) else -((-2 * a + b) / (2 * b))
  }

  /** The remainder that TruncDiv drops, for a dividend that is not negative. */
  lemma TruncRemainder(a: int, b: int) returns (r: int)
    requires a >= 0 && b > 0
    ensures 0 <= r < b && a == b * TruncDiv(a, b) + r
  {
    r := a - b * TruncDiv(a, b);
  }

  lemma MulLe(a: int, b: int, k: int)
    requires a <= b && 0 <= k
    ensures k * a <= k * b
  {
    assert 0 <= k * (b - a);
  }

  lemma MulLt(a: int, b: int, k: int)
    requires a < b && 0 < k
    ensures k * a < k * b
  {
    assert 0 < k * (b - a);
  }
}
