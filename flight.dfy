/**
 * The integrator `useSimpleFlightModel`: one `update(delta)` step of the
 * stored `SimState` under the current control inputs.
 *
 * `Math.sin` and `Math.cos` are parameters; the only bound the model uses
 * about them is |sin|, |cos| <= 1, and only where a lemma says so.
 * Arithmetic is exact over `real`.
 */
module Flight {
  import opened Wrappers
  import opened SimTypes
  import opened Controls

  const PITCH_RATE: real := 0.8
  const ROLL_RATE: real := 1.2
  const YAW_RATE: real := 0.6
  const THROTTLE_RATE: real := 0.3
  const MIN_SPEED: real := 20.0
  const MAX_SPEED: real := 150.0
  const GRAVITY: real := 9.81
  const LIFT_COEFFICIENT: real := 0.15
  /** Below this height the aircraft is put back on the ground. */
  const GROUND_LEVEL: real := 5.0
  /** The largest time step one update integrates. */
  const MAX_STEP: real := 0.1

  /** `d` is a whole number of turns of 360 degrees. */
  ghost predicate WholeTurns(d: real)
  {
    (d / 360.0).Floor as real == d / 360.0
  }

  /**
   * JavaScript `a % 360` on numbers: `a` less 360 times the quotient
   * truncated toward zero, so the remainder has the sign of `a`.
   */
  function JsRem360(a: real): (r: real)
    ensures a >= 0.0 ==> 0.0 <= r < 360.0
    ensures a < 0.0 ==> -360.0 < r <= 0.0
    ensures 0.0 <= a < 360.0 ==> r == a
    ensures 360.0 <= a < 720.0 ==> r == a - 360.0
    ensures WholeTurns(a - r)
  {
    var n := if a >= 0.0 then (a / 360.0).Floor else -((-a) / 360.0).Floor;
    assert (a - (a - 360.0 * n as real)) / 360.0 == n as real;
    a - 360.0 * n as real
  }

  /** The yaw in degrees, `yaw * 180 / Math.PI`. */
  function Degrees(yaw: real): real
  {
    yaw * 180.0 / PI
  }

  /**
   * The heading `((deg % 360) + 360) % 360` of a yaw: in [0, 360), a whole
   * number of turns away from the yaw in degrees, and the yaw itself when that
   * already lies in [0, 360).
   */
  function Heading(yaw: real): (h: real)
    ensures 0.0 <= h < 360.0
    ensures WholeTurns(Degrees(yaw) - h)
    ensures 0.0 <= Degrees(yaw) < 360.0 ==> h == Degrees(yaw)
  {
    var d := Degrees(yaw);
    var h1 := JsRem360(d);
    var h := JsRem360(h1 + 360.0);
    SumOfTurns(d, h1, h);
    h
  }

  lemma SumOfTurns(d: real, h1: real, h: real)
    requires WholeTurns(d - h1) && WholeTurns(h1 + 360.0 - h)
    ensures WholeTurns(d - h)
  {
    var n1 := ((d - h1) / 360.0).Floor;
    var n2 := ((h1 + 360.0 - h) / 360.0).Floor;
    assert (d - h) / 360.0 == (d - h1) / 360.0 + (h1 + 360.0 - h) / 360.0 - 1.0;
    assert (d - h) / 360.0 == (n1 + n2 - 1) as real;
  }

  /** `Math.max(lo, Math.min(hi, v))`. */
  function Clamp(lo: real, hi: real, v: real): (r: real)
    requires lo <= hi
    ensures lo <= r <= hi
    ensures lo <= v <= hi ==> r == v
    ensures v < lo ==> r == lo
    ensures v > hi ==> r == hi
  {
    Max(lo, Min(hi, v))
  }

  /** The target speed of a throttle setting, 20 at idle and 150 at full throttle. */
  function TargetSpeed(throttle: real): (v: real)
    ensures 0.0 <= throttle <= 1.0 ==> MIN_SPEED <= v <= MAX_SPEED
  {
    MIN_SPEED + (MAX_SPEED - MIN_SPEED) * throttle
  }

  /** The speed eased toward the target; for steps up to 0.5 it lies between the two. */
  function EasedSpeed(speed: real, target: real, dt: real): (v: real)
    ensures 0.0 <= dt <= 0.5 && speed <= target ==> speed <= v <= target
    ensures 0.0 <= dt <= 0.5 && target <= speed ==> target <= v <= speed
  {
    var v := speed + (target - speed) * 2.0 * dt;
    if 0.0 <= dt <= 0.5 then
      EaseBetween(speed, target, dt, v);
      v
    else
      v
  }

  lemma EaseBetween(a: real, b: real, dt: real, v: real)
    requires 0.0 <= dt <= 0.5 && v == a + (b - a) * 2.0 * dt
    ensures a <= b ==> a <= v <= b
    ensures b <= a ==> b <= v <= a
  {
    assert v == a + (b - a) * (2.0 * dt);
    FractionBetween(a, b, 2.0 * dt, v);
  }

  /** A point a fraction `t` of the way from `a` to `b` lies between them. */
  lemma FractionBetween(a: real, b: real, t: real, v: real)
    requires 0.0 <= t <= 1.0 && v == a + (b - a) * t
    ensures a <= b ==> a <= v <= b
    ensures b <= a ==> b <= v <= a
  {
    if a <= b {
      FractionUp(a, b, t, v);
    } else {
      assert v == b + (a - b) * (1.0 - t);
      FractionUp(b, a, 1.0 - t, v);
    }
  }

  lemma FractionUp(a: real, b: real, t: real, v: real)
    requires 0.0 <= t <= 1.0 && a <= b && v == a + (b - a) * t
    ensures a <= v <= b
  {
    var d := b - a;
    MulLe(t, 1.0, d);
    MulLe(0.0, t, d);
    assert 0.0 * d == 0.0 && 1.0 * d == d;
    assert d * t == t * d;
  }

  lemma MulLe(x: real, y: real, c: real)
    requires x <= y && c >= 0.0
    ensures x * c <= y * c
  {
  }

  /** The lift of a speed, `0.15 * (speed / 150)^2`. */
  function Lift(speed: real): real
  {
    var factor := speed / MAX_SPEED;
    LIFT_COEFFICIENT * factor * factor
  }

  /**
   * The velocity along the nose direction `(sin yaw cos pitch, sin pitch, cos yaw cos pitch)`,
   * with lift less gravity added to the vertical part.
   */
  function Velocity(sinYaw: real, cosYaw: real, sinPitch: real, cosPitch: real, speed: real, dt: real): (v: Vec3)
  {
    var forward := (sinYaw * cosPitch, sinPitch, cosYaw * cosPitch);
    (forward.0 * speed, forward.1 * speed + (Lift(speed) - GRAVITY) * dt * 10.0, forward.2 * speed)
  }

  /** |f| <= 1 everywhere, as for `Math.sin` and `Math.cos`. */
  ghost predicate UnitBounded(f: real -> real)
  {
    forall x :: -1.0 <= f(x) <= 1.0
  }

  lemma UnitProduct(a: real, b: real, speed: real, p: real)
    requires -1.0 <= a <= 1.0 && -1.0 <= b <= 1.0 && speed >= 0.0 && p == a * b * speed
    ensures -speed <= p <= speed
  {
    assert -1.0 <= a * b <= 1.0 by {
      if a >= 0.0 && b >= 0.0 {
        assert a * b <= 1.0 * b;
      } else if a >= 0.0 {
        assert a * b >= 1.0 * b;
      } else if b >= 0.0 {
        assert a * b >= a * 1.0;
      } else {
        assert a * b <= (-1.0) * b;
      }
    }
    if a * b >= 0.0 {
      assert a * b * speed <= 1.0 * speed;
    } else {
      assert a * b * speed >= -1.0 * speed;
    }
  }

  /** The new throttle: the old one moved by the throttle input, clamped to [0, 1]. */
  function NewThrottle(throttle: real, input: real, dt: real): (t: real)
    ensures 0.0 <= t <= 1.0
    ensures 0.0 <= throttle <= 1.0 && input * dt == 0.0 ==> t == throttle
  {
    assert input * THROTTLE_RATE * dt == THROTTLE_RATE * (input * dt);
    Clamp(0.0, 1.0, throttle + input * THROTTLE_RATE * dt)
  }

  /** The attitude after a step: pitch clamped to +-pi/3, roll to +-pi/2, yaw free. */
  function Attitude(rotation: Vec3, c: FlightControls, dt: real): (r: Vec3)
    ensures -PI / 3.0 <= r.0 <= PI / 3.0 && -PI / 2.0 <= r.1 <= PI / 2.0
  {
    (Clamp(-PI / 3.0, PI / 3.0, rotation.0 + c.pitch * PITCH_RATE * dt),
     Clamp(-PI / 2.0, PI / 2.0, rotation.1 + c.roll * ROLL_RATE * dt),
     rotation.2 + c.yaw * YAW_RATE * dt)
  }

  const METERS_PER_DEGREE_LAT: real := 111320.0

  /** The latitude moved north by the displacement `vz * dt` metres. */
  function NewLatitude(latitude: real, vz: real, dt: real): (r: real)
    ensures (r - latitude) * METERS_PER_DEGREE_LAT == vz * dt
  {
    latitude + vz * dt / METERS_PER_DEGREE_LAT
  }

  /**
   * The longitude moved east by the displacement `vx * dt` metres, at
   * `111320 * cos(latitude)` metres per degree.
   */
  function NewLongitude(cos: real -> real, latitude: real, longitude: real, vx: real, dt: real): (r: real)
    ensures var m := METERS_PER_DEGREE_LAT * cos(latitude * PI / 180.0);
      m != 0.0 ==> (r - longitude) * m == vx * dt
  {
    var metersPerDegreeLon := METERS_PER_DEGREE_LAT * cos(latitude * PI / 180.0);
    if metersPerDegreeLon != 0.0 then longitude + vx * dt / metersPerDegreeLon else longitude
  }

  /**
   * The state `update(delta)` stores when the simulation is running: the
   * throttle and the attitude move with the inputs and are clamped, the speed
   * eases toward the throttle's target speed, the velocity points along the nose
   * with lift less gravity added to its vertical part, the position advances by
   * `velocity * dt`, and a position below 5 is put back at 5 with the speed cut
   * to `max(20, 0.8 * speed)`. The derived fields follow: the altitude is the
   * height and the heading is the normalised yaw.
   */
  function Step(sin: real -> real, cos: real -> real, s: SimState, c: FlightControls, delta: real): (n: SimState)
    ensures 0.0 <= n.throttle <= 1.0
    ensures -PI / 3.0 <= n.rotation.0 <= PI / 3.0 && -PI / 2.0 <= n.rotation.1 <= PI / 2.0
    ensures n.altitude == n.position.1 >= GROUND_LEVEL
    ensures 0.0 <= n.heading < 360.0 && n.heading == Heading(n.rotation.2)
    ensures n.worldSeed == s.worldSeed
  {
    var dt := Min(delta, MAX_STEP);
    var throttle := NewThrottle(s.throttle, c.throttle, dt);
    var r := Attitude(s.rotation, c, dt);
    var eased := EasedSpeed(s.speed, TargetSpeed(throttle), dt);
    var v := Velocity(sin(r.2), cos(r.2), sin(r.0), cos(r.0), eased, dt);
    var y := s.position.1 + v.1 * dt;
    var height := if y < GROUND_LEVEL then GROUND_LEVEL else y;
    var speed := if y < GROUND_LEVEL then Max(MIN_SPEED, eased * 0.8) else eased;
    SimState((s.position.0 + v.0 * dt, height, s.position.2 + v.2 * dt), r, v, throttle, speed, height,
             Heading(r.2), NewLatitude(s.latitude, v.2, dt),
             NewLongitude(cos, s.latitude, s.longitude, v.0, dt), s.worldSeed)
  }

  /** The eased speed of a step, before any ground contact. */
  function StepSpeed(s: SimState, c: FlightControls, dt: real): real
  {
    EasedSpeed(s.speed, TargetSpeed(NewThrottle(s.throttle, c.throttle, dt)), dt)
  }

  /** The height a step reaches before the ground check. */
  function TentativeHeight(sin: real -> real, cos: real -> real, s: SimState, c: FlightControls, dt: real): real
  {
    var r := Attitude(s.rotation, c, dt);
    s.position.1 + Velocity(sin(r.2), cos(r.2), sin(r.0), cos(r.0), StepSpeed(s, c, dt), dt).1 * dt
  }

  /**
   * The ground check: a step that would end below 5 ends at 5 with its speed
   * cut to `max(20, 0.8 * eased)`; any other step keeps its height and the eased speed.
   */
  lemma GroundBounce(sin: real -> real, cos: real -> real, s: SimState, c: FlightControls, delta: real)
    ensures var dt := Min(delta, MAX_STEP);
      var n := Step(sin, cos, s, c, delta);
      var y := TentativeHeight(sin, cos, s, c, dt);
      (y < GROUND_LEVEL ==> n.position.1 == GROUND_LEVEL && n.speed == Max(MIN_SPEED, StepSpeed(s, c, dt) * 0.8))
      && (y >= GROUND_LEVEL ==> n.position.1 == y && n.speed == StepSpeed(s, c, dt))
  {
  }

  /** A delta above 0.1 integrates exactly the step of 0.1. */
  lemma StepCapped(sin: real -> real, cos: real -> real, s: SimState, c: FlightControls, delta: real)
    requires delta >= MAX_STEP
    ensures Step(sin, cos, s, c, delta) == Step(sin, cos, s, c, MAX_STEP)
  {
    assert Min(delta, MAX_STEP) == MAX_STEP == Min(MAX_STEP, MAX_STEP);
  }

  /** For a non-negative delta the eased speed lies between the old speed and the target `20 + 130 * throttle`. */
  lemma EasedSpeedBetween(s: SimState, c: FlightControls, delta: real)
    requires delta >= 0.0
    ensures var dt := Min(delta, MAX_STEP);
      var target := TargetSpeed(NewThrottle(s.throttle, c.throttle, dt));
      (s.speed <= target ==> s.speed <= StepSpeed(s, c, dt) <= target)
      && (target <= s.speed ==> target <= StepSpeed(s, c, dt) <= s.speed)
  {
  }

  /** What holds of every state a running update produces from a state that satisfies it. */
  ghost predicate Inv(s: SimState)
  {
    && 0.0 <= s.throttle <= 1.0
    && -PI / 3.0 <= s.rotation.0 <= PI / 3.0
    && -PI / 2.0 <= s.rotation.1 <= PI / 2.0
    && s.altitude == s.position.1 >= GROUND_LEVEL
    && 0.0 <= s.heading < 360.0 && s.heading == Heading(s.rotation.2)
    && MIN_SPEED <= s.speed <= MAX_SPEED
  }

  /** A running update with a non-negative delta keeps the invariant, the speed range included. */
  lemma StepKeepsInv(sin: real -> real, cos: real -> real, s: SimState, c: FlightControls, delta: real)
    requires Inv(s) && delta >= 0.0
    ensures Inv(Step(sin, cos, s, c, delta))
  {
    var dt := Min(delta, MAX_STEP);
    var e := StepSpeed(s, c, dt);
    assert MIN_SPEED <= e <= MAX_SPEED;
    assert e * 0.8 <= MAX_SPEED;
  }

  /** A forward vector with |sin|, |cos| <= 1 moves horizontally at most at the speed. */
  lemma VelocityHorizontal(sinYaw: real, cosYaw: real, sinPitch: real, cosPitch: real, speed: real, dt: real)
    requires -1.0 <= sinYaw <= 1.0 && -1.0 <= cosYaw <= 1.0 && -1.0 <= cosPitch <= 1.0 && speed >= 0.0
    ensures var v := Velocity(sinYaw, cosYaw, sinPitch, cosPitch, speed, dt);
      -speed <= v.0 <= speed && -speed <= v.2 <= speed
  {
    var v := Velocity(sinYaw, cosYaw, sinPitch, cosPitch, speed, dt);
    UnitProduct(sinYaw, cosPitch, speed, v.0);
    UnitProduct(cosYaw, cosPitch, speed, v.2);
  }

  /** With |sin|, |cos| <= 1, a step from a state in the invariant moves horizontally at most at the top speed. */
  lemma StepHorizontalVelocity(sin: real -> real, cos: real -> real, s: SimState, c: FlightControls, delta: real)
    requires UnitBounded(sin) && UnitBounded(cos) && Inv(s) && delta >= 0.0
    ensures var n := Step(sin, cos, s, c, delta);
      -MAX_SPEED <= n.velocity.0 <= MAX_SPEED && -MAX_SPEED <= n.velocity.2 <= MAX_SPEED
  {
    var dt := Min(delta, MAX_STEP);
    var r := Attitude(s.rotation, c, dt);
    var e := StepSpeed(s, c, dt);
    assert MIN_SPEED <= e <= MAX_SPEED;
    assert -1.0 <= sin(r.2) <= 1.0 && -1.0 <= cos(r.2) <= 1.0 && -1.0 <= cos(r.0) <= 1.0;
    VelocityHorizontal(sin(r.2), cos(r.2), sin(r.0), cos(r.0), e, dt);
    assert Step(sin, cos, s, c, delta).velocity == Velocity(sin(r.2), cos(r.2), sin(r.0), cos(r.0), e, dt);
  }

  /**
   * A step of zero time from a state in the invariant changes nothing but the
   * velocity: position, attitude, throttle, speed, the derived fields and the
   * latitude and longitude all stay.
   */
  lemma ZeroStep(sin: real -> real, cos: real -> real, s: SimState, c: FlightControls)
    requires Inv(s)
    ensures var n := Step(sin, cos, s, c, 0.0);
      n == s.(velocity := n.velocity)
  {
    var r := Attitude(s.rotation, c, 0.0);
    assert r == s.rotation;
    var e := StepSpeed(s, c, 0.0);
    assert e == s.speed;
    var n := Step(sin, cos, s, c, 0.0);
    assert n.position == s.position;
    assert n.latitude == s.latitude && n.longitude == s.longitude;
  }

  /** The hook's stored state `stateRef.current`. */
  class FlightModel {
    var state: SimState
    const sin: real -> real
    const cos: real -> real

    constructor (initialState: SimState, sin: real -> real, cos: real -> real)
      ensures state == initialState && this.sin == sin && this.cos == cos
    {
      state := initialState;
      this.sin := sin;
      this.cos := cos;
    }

    /**
     * `update(delta)`: when not running, return the stored state and change
     * nothing; otherwise store the state of one step and return it. A running
     * update with a non-negative delta keeps the stored state in `Inv`.
     */
    method Update(delta: real, controls: FlightControls, isRunning: bool) returns (r: SimState)
      modifies this
      ensures !isRunning ==> state == old(state) && r == old(state)
      ensures isRunning ==> state == Step(sin, cos, old(state), controls, delta) && r == state
      ensures old(Inv(state)) && delta >= 0.0 ==> Inv(state)
    {
      if !isRunning {
        return state;
      }
      if Inv(state) && delta >= 0.0 {
        StepKeepsInv(sin, cos, state, controls, delta);
      }
      var newState := Step(sin, cos, state, controls, delta);
      state := newState;
      r := newState;
    }
  }
}
