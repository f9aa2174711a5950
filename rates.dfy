/**
 * The arithmetic shared by the report formulas: percentages, the zero guards in front of them,
 * and the two conversions from `double` to an integer the code uses.
 */
module Rates {
  import opened Wrappers

  /** `n / d * 100`, defined only when the divisor is not zero. */
  function Percent(n: real, d: real): (r: real)
    requires d != 0.0
    ensures r * d == n * 100.0
  {
    n / d * 100.0
  }

  /** The guarded percentage `d == 0 ? 0 : n / d * 100` written throughout the formulas. */
  function GuardedPercent(n: real, d: real): (r: real)
    ensures d == 0.0 ==> r == 0.0
    ensures d != 0.0 ==> r * d == n * 100.0
  {
    if d == 0.0 then 0.0 else Percent(n, d)
  }

  /**
   * An unguarded `n / d * 100` on doubles.  Java yields an infinity or NaN for a zero divisor;
   * the model yields `None` there.
   */
  function RawPercent(n: real, d: real): (r: Option<real>)
    ensures r.None? <==> d == 0.0
    ensures r.Some? ==> r.value * d == n * 100.0
  {
    if d == 0.0 then None else Some(Percent(n, d))
  }

  /** `Math.round` on a double: the nearest integer, halves rounded up. */
  function Round(x: real): (r: int)
    ensures x - 0.5 < r as real <= x + 0.5
  {
    (x + 0.5).Floor
  }

  const IntMin: int := -0x8000_0000
  const IntMax: int := 0x7FFF_FFFF

  /**
   * `Double.intValue`, a Java narrowing cast: the fractional part is dropped toward zero, and
   * a value beyond the 32-bit range saturates at its bound.
   */
  function IntValue(x: real): (r: int)
    ensures IntMin <= r <= IntMax
    ensures IntMin as real <= x <= IntMax as real ==> (x >= 0.0 ==> x - 1.0 < r as real <= x) && (x < 0.0 ==> x <= r as real < x + 1.0)
    ensures x > IntMax as real ==> r == IntMax
    ensures x < IntMin as real ==> r == IntMin
  {
    var t := if x >= 0.0 then x.Floor else -((-x).Floor);
    if t > IntMax then IntMax else if t < IntMin then IntMin else t
  }

  /** Java `int` addition, which wraps around modulo 2^32. */
  function AddInt32(a: int, b: int): (r: int)
    requires IntMin <= a <= IntMax && IntMin <= b <= IntMax
    ensures IntMin <= r <= IntMax
    ensures IntMin <= a + b <= IntMax ==> r == a + b
    ensures (r - (a + b)) % 0x1_0000_0000 == 0
  {
    var s := a + b;
    if s > IntMax then s - 0x1_0000_0000 else if s < IntMin then s + 0x1_0000_0000 else s
  }
}
