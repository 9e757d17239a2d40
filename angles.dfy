/**
 * Angle arithmetic of the zone renderer (examples/visualize/geojson.rs):
 * degree/radian conversion, `normalize_angle` and `normalize_sweep`.
 *
 * Angles are exact reals. Rust's `f64::consts::PI` is modelled by the rational
 * 3.141592653589793, so converting to radians and back is exact here.
 */
module Angles {

  const PI: real := 3.141592653589793
  const TwoPi: real := 2.0 * PI

  /** `f64::to_radians`. */
  function ToRadians(degrees: real): real
  {
    degrees * (PI / 180.0)
  }

  /** `f64::to_degrees`. */
  function ToDegrees(radians: real): real
  {
    radians * (180.0 / PI)
  }

  lemma DegreesRadians(x: real)
    ensures ToDegrees(ToRadians(x)) == x
    ensures ToRadians(ToDegrees(x)) == x
  {
  }

  /** `a` and `b` differ by a whole number of periods. */
  predicate Congruent(a: real, b: real, period: real)
    requires period > 0.0
  {
    ((a - b) / period).Floor as real == (a - b) / period
  }

  /** Rounding toward zero, as a float-to-integer cast does. */
  function Trunc(x: real): (n: int)
    ensures x >= 0.0 ==> n as real <= x < n as real + 1.0
    ensures x < 0.0 ==> n as real - 1.0 < x <= n as real
  {
    if x >= 0.0 then x.Floor else -((-x).Floor)
  }

  /** Rust's `x % 360.0` on f64: the remainder of truncating division, with the sign of `x`. */
  function Rem360(x: real): (r: real)
    ensures -360.0 < r < 360.0
    ensures x >= 0.0 ==> r >= 0.0
    ensures x < 0.0 ==> r <= 0.0
    ensures Congruent(r, x, 360.0)
  {
    var q := Trunc(x / 360.0);
    assert (x - 360.0 * q as real - x) / 360.0 == (-q) as real;
    FloorOfInteger(-q);
    x - 360.0 * q as real
  }

  lemma FloorOfInteger(n: int)
    ensures (n as real).Floor == n
  {
  }

  /**
   * `normalize_angle`: the angle brought into [0, 360), unchanged modulo 360.
   * Written here as the floored remainder; `NormalizeAngleAsWritten` shows it
   * is the source's truncating remainder, plus 360 when that is negative.
   */
  function NormalizeAngle(angle: real): (r: real)
    ensures 0.0 <= r < 360.0
    ensures Congruent(r, angle, 360.0)
  {
    var k := (angle / 360.0).Floor;
    assert (angle - 360.0 * k as real - angle) / 360.0 == (-k) as real;
    FloorOfInteger(-k);
    angle - 360.0 * k as real
  }

  /** `angle % 360.0`, then 360 added when that is negative, is the normalised angle. */
  lemma NormalizeAngleAsWritten(angle: real)
    ensures var a := Rem360(angle);
            NormalizeAngle(angle) == if a < 0.0 then a + 360.0 else a
  {
    var a := Rem360(angle);
    var r := if a < 0.0 then a + 360.0 else a;
    if a < 0.0 {
      var k := ((a - angle) / 360.0).Floor;
      assert (r - angle) / 360.0 == (k + 1) as real;
      FloorOfInteger(k + 1);
    }
    NormalizeAngleUnique(angle, r);
  }

  /** Two congruent values less than one period apart are equal. */
  lemma {:induction false} CongruentWithinPeriod(a: real, b: real, period: real)
    requires period > 0.0
    requires -period < a - b < period
    requires Congruent(a, b, period)
    ensures a == b
  {
    var q := ((a - b) / period).Floor;
    assert -1.0 < (a - b) / period < 1.0 by {
      DivideBounds(a - b, period);
    }
    assert q == 0;
  }

  lemma DivideBounds(d: real, period: real)
    requires period > 0.0
    requires -period < d < period
    ensures -1.0 < d / period < 1.0
  {
  }

  /** A value plus a whole number of periods is congruent to it. */
  lemma {:induction false} CongruentByTurns(a: real, b: real, period: real, k: int)
    requires period > 0.0
    requires a == b + period * k as real
    ensures Congruent(a, b, period)
  {
    assert (a - b) / period == k as real;
    FloorOfInteger(k);
  }

  /**
   * `normalize_angle` is characterised by its contract: the one value in
   * [0, 360) congruent to the input. In particular an angle already in that
   * range is returned unchanged, and a whole turn added makes no difference.
   */
  lemma {:induction false} NormalizeAngleUnique(angle: real, r: real)
    requires 0.0 <= r < 360.0 && Congruent(r, angle, 360.0)
    ensures NormalizeAngle(angle) == r
  {
    var n := NormalizeAngle(angle);
    CongruentTransitive(n, angle, r, 360.0);
    CongruentWithinPeriod(n, r, 360.0);
  }

  lemma {:induction false} CongruentTransitive(a: real, b: real, c: real, period: real)
    requires period > 0.0
    requires Congruent(a, b, period) && Congruent(c, b, period)
    ensures Congruent(a, c, period)
  {
    var i := ((a - b) / period).Floor;
    var j := ((c - b) / period).Floor;
    assert (a - c) / period == (a - b) / period - (c - b) / period;
    assert (a - c) / period == (i - j) as real;
  }

  lemma NormalizeAngleInRange(angle: real)
    requires 0.0 <= angle < 360.0
    ensures NormalizeAngle(angle) == angle
  {
    assert Congruent(angle, angle, 360.0);
    NormalizeAngleUnique(angle, angle);
  }

  lemma NormalizeAngleTurns(angle: real, k: int)
    ensures NormalizeAngle(angle + 360.0 * k as real) == NormalizeAngle(angle)
  {
    var n := NormalizeAngle(angle);
    assert (angle + 360.0 * k as real - angle) / 360.0 == k as real;
    CongruentTransitive(n, angle, angle + 360.0 * k as real, 360.0);
    NormalizeAngleUnique(angle + 360.0 * k as real, n);
  }

  /** Rounding up. */
  function Ceil(x: real): (n: int)
    ensures n as real - 1.0 < x <= n as real
  {
    -((-x).Floor)
  }

  /**
   * `d` moved by whole periods into [0, period]: a negative `d` lands in
   * [0, period), one already in [0, period] stays, and one above a period
   * lands in (0, period].
   */
  function Wrap(d: real, period: real): (r: real)
    requires period > 0.0
    ensures 0.0 <= r <= period
    ensures Congruent(r, d, period)
    ensures 0.0 <= d <= period ==> r == d
    ensures d < 0.0 ==> r < period
    ensures d > period ==> r > 0.0
  {
    if d < 0.0 then
      var k := (d / period).Floor;
      WrapDown(d, period, k);
      d - period * k as real
    else if d <= period then
      CongruentByTurns(d, d, period, 0);
      d
    else
      var k := Ceil(d / period) - 1;
      WrapUp(d, period, k);
      d - period * k as real
  }

  /** Taking `k` periods away, for `k` the floor of `d / period`, lands in [0, period). */
  lemma WrapDown(d: real, period: real, k: int)
    requires period > 0.0
    requires k as real <= d / period < k as real + 1.0
    ensures 0.0 <= d - period * k as real < period
    ensures Congruent(d - period * k as real, d, period)
  {
    var q := d / period;
    assert d == period * q;
    assert d - period * k as real == period * (q - k as real);
    var x := q - k as real;
    assert 0.0 <= x < 1.0;
    MultiplyBounds(period, x);
    assert 0.0 <= period * x < period;
    assert d - period * k as real == period * x;
    CongruentByTurns(d - period * k as real, d, period, -k);
  }

  /** Taking `k` periods away, for `k` one below the ceiling of `d / period`, lands in (0, period]. */
  lemma WrapUp(d: real, period: real, k: int)
    requires period > 0.0
    requires k as real < d / period <= k as real + 1.0
    ensures 0.0 < d - period * k as real <= period
    ensures Congruent(d - period * k as real, d, period)
  {
    var q := d / period;
    assert d == period * q;
    assert d - period * k as real == period * (q - k as real);
    var x := q - k as real;
    MultiplyBounds(period, x);
    assert d - period * k as real == period * x;
    CongruentByTurns(d - period * k as real, d, period, -k);
  }

  lemma MultiplyBounds(p: real, x: real)
    requires p > 0.0
    ensures 0.0 <= x < 1.0 ==> 0.0 <= p * x < p
    ensures 0.0 < x <= 1.0 ==> 0.0 < p * x <= p
  {
    assert p - p * x == p * (1.0 - x);
  }

  /** Wrapping a value in radians by a turn, read in degrees, is wrapping its degree value by 360. */
  lemma WrapInDegrees(x: real)
    ensures ToDegrees(Wrap(x, TwoPi)) == Wrap(ToDegrees(x), 360.0)
  {
    var q := x / TwoPi;
    assert ToDegrees(x) / 360.0 == q;
    assert x < 0.0 <==> ToDegrees(x) < 0.0;
    assert x <= TwoPi <==> ToDegrees(x) <= 360.0;
    if x < 0.0 {
      var k := q.Floor;
      assert ToDegrees(x - TwoPi * k as real) == ToDegrees(x) - 360.0 * k as real;
    } else if x > TwoPi {
      var k := Ceil(q) - 1;
      assert ToDegrees(x - TwoPi * k as real) == ToDegrees(x) - 360.0 * k as real;
    }
  }

  /**
   * The value `normalize_sweep(start, end)` arrives at, in closed form: the
   * difference `end - start` moved by whole turns into [0, 2π].
   */
  function NormalizedSweep(start: real, end: real): (r: real)
    ensures 0.0 <= r <= TwoPi
    ensures Congruent(r, end - start, TwoPi)
    ensures 0.0 <= end - start <= TwoPi ==> r == end - start
    ensures end - start < 0.0 ==> r < TwoPi
    ensures end - start > TwoPi ==> r > 0.0
  {
    Wrap(end - start, TwoPi)
  }

  /**
   * `normalize_sweep`: adds a full turn while the sweep is negative, then
   * takes one away while it exceeds a full turn.
   */
  method NormalizeSweep(start: real, end: real) returns (sweep: real)
    ensures sweep == NormalizedSweep(start, end)
  {
    var d := end - start;
    sweep := d;
    ghost var turns: int := 0;
    while sweep < 0.0
      invariant sweep == d + TwoPi * turns as real
      invariant turns >= 0
      invariant turns > 0 ==> sweep < TwoPi
      invariant d >= 0.0 ==> turns == 0
      decreases (-sweep).Floor
    {
      sweep := sweep + TwoPi;
      turns := turns + 1;
    }
    ghost var afterFirst := sweep;
    while sweep > TwoPi
      invariant sweep == d + TwoPi * turns as real
      invariant afterFirst <= TwoPi ==> sweep == afterFirst
      invariant afterFirst > TwoPi ==> 0.0 < sweep
      decreases sweep.Floor
    {
      sweep := sweep - TwoPi;
      turns := turns - 1;
    }
    LoopsReachWrap(d, sweep, turns);
  }

  /**
   * Where the loops of `normalize_sweep` stop: a value in [0, 2π], a whole
   * number of turns from `d`, below 2π when `d` was negative and above 0
   * when `d` exceeded a turn, is the wrapped difference.
   */
  lemma LoopsReachWrap(d: real, sweep: real, turns: int)
    requires 0.0 <= sweep <= TwoPi
    requires sweep == d + TwoPi * turns as real
    requires d < 0.0 ==> sweep < TwoPi
    requires 0.0 <= d <= TwoPi ==> sweep == d
    requires d > TwoPi ==> sweep > 0.0
    ensures sweep == Wrap(d, TwoPi)
  {
    var closed := Wrap(d, TwoPi);
    CongruentByTurns(sweep, d, TwoPi, turns);
    if d < 0.0 || d > TwoPi {
      CongruentTransitive(sweep, d, closed, TwoPi);
      CongruentWithinPeriod(sweep, closed, TwoPi);
    }
  }
}
