/** Two-decimal rounding as the engines use it, stated on exact reals.

    - Round2 is `Math.round(x * 100) / 100`: Math.round breaks ties toward
      positive infinity, so it is Floor(y + 1/2).
    - ToFixed2 is the numeric value of `x.toFixed(2)`: the magnitude is rounded
      half up and the sign put back, so ties go away from zero.
 */
module Rounding {

  /** Math.round(x * 100) / 100 */
  function Round2(x: real): (r: real)
    ensures -0.005 < r - x <= 0.005
    ensures IsCents(r)
  {
    var n := (x * 100.0 + 0.5).Floor;
    assert n as real <= x * 100.0 + 0.5 < n as real + 1.0;
    n as real / 100.0
  }

  /** A value with at most two decimals. */
  predicate IsCents(r: real) {
    (r * 100.0).Floor as real == r * 100.0
  }

  /** The value of x.toFixed(2), read back as a number. */
  function ToFixed2(x: real): (r: real)
    ensures IsCents(r)
    ensures -0.005 <= r - x <= 0.005
    ensures x >= 0.0 ==> r == Round2(x)
    ensures x < 0.0 ==> -0.005 <= r - x < 0.005
    ensures r > 0.0 ==> x > 0.0
    ensures r < 0.0 ==> x < 0.0
  {
    if x < 0.0 then
      var m := Round2(-x);
      FloorIs(-m * 100.0, -(m * 100.0).Floor);
      -m
    else Round2(x)
  }

  /** Floor is determined by the unit interval that holds its argument. */
  lemma FloorIs(y: real, n: int)
    requires n as real <= y < n as real + 1.0
    ensures y.Floor == n
  {
  }

  /** A value that already has two decimals is left alone. */
  lemma Round2OfCents(n: int)
    ensures Round2(n as real / 100.0) == n as real / 100.0
  {
    FloorIs(n as real / 100.0 * 100.0 + 0.5, n);
  }

  /** Rounding twice is rounding once. */
  lemma Round2Idempotent(x: real)
    ensures Round2(Round2(x)) == Round2(x)
  {
    var n := (x * 100.0 + 0.5).Floor;
    Round2OfCents(n);
  }

  /** Rounding never reverses the order of two values. */
  lemma Round2Monotone(x: real, y: real)
    requires x <= y
    ensures Round2(x) <= Round2(y)
  {
    var m, n := (x * 100.0 + 0.5).Floor, (y * 100.0 + 0.5).Floor;
    assert m as real <= y * 100.0 + 0.5;
    assert m <= n;
  }

  /** A percentage in [0, 100] stays in [0, 100] after rounding. */
  lemma Round2Percent(x: real)
    requires 0.0 <= x <= 100.0
    ensures 0.0 <= Round2(x) <= 100.0
  {
    Round2Monotone(0.0, x);
    Round2Monotone(x, 100.0);
    Round2OfCents(0);
    Round2OfCents(10000);
  }

  /** toFixed(2) never reverses the order of two values. */
  lemma ToFixed2Monotone(x: real, y: real)
    requires x <= y
    ensures ToFixed2(x) <= ToFixed2(y)
  {
    if x < 0.0 && y < 0.0 {
      Round2Monotone(-y, -x);
    } else if 0.0 <= x {
      Round2Monotone(x, y);
    } else {
      Round2Monotone(0.0, -x);
      Round2Monotone(0.0, y);
      Round2OfCents(0);
    }
  }

  /** toFixed(2) of a value at most 100 is at most 100. */
  lemma ToFixed2AtMost100(x: real)
    requires x <= 100.0
    ensures ToFixed2(x) <= 100.0
  {
    ToFixed2Monotone(x, 100.0);
    Round2OfCents(10000);
  }
}
