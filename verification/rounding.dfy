/**
 Two-decimal truncation of a price, as the odds generator applies it: scale by 100,
 convert to an integer (which truncates toward zero), scale back.
 */
module Rounding {

  /** The integer conversion of a float: the fractional part is dropped, toward zero. */
  function TruncateTowardZero(x: real): (n: int)
    ensures 0.0 <= x ==> n as real <= x < n as real + 1.0
    ensures x < 0.0 ==> n as real - 1.0 < x <= n as real
  {
    if x >= 0.0 then x.Floor else -((-x).Floor)
  }

  /** Truncates `val` to two decimal places. */
  function RoundToTwoDecimal(val: real): (r: real)
    ensures 0.0 <= val ==> 0.0 <= r <= val && val - r < 0.01
    ensures val < 0.0 ==> val <= r <= 0.0 && r - val < 0.01
    ensures (r * 100.0).Floor as real == r * 100.0
  {
    TruncateTowardZero(val * 100.0) as real / 100.0
  }

  /** Truncation keeps the largest whole number of cents not above a non-negative value. */
  lemma RoundToTwoDecimalGreatestCents(val: real, cents: int)
    requires 0.0 <= val
    requires cents as real / 100.0 <= val
    ensures cents as real / 100.0 <= RoundToTwoDecimal(val)
  {
    var n := TruncateTowardZero(val * 100.0);
    assert cents as real <= val * 100.0;
    assert n == (val * 100.0).Floor;
    assert cents <= n;
  }

  /** A value already truncated to two decimals is left unchanged by a second truncation. */
  lemma RoundToTwoDecimalIdempotent(val: real)
    ensures RoundToTwoDecimal(RoundToTwoDecimal(val)) == RoundToTwoDecimal(val)
  {
    var r := RoundToTwoDecimal(val);
    var n := TruncateTowardZero(val * 100.0);
    assert r * 100.0 == n as real;
    assert TruncateTowardZero(r * 100.0) == n;
  }
}
