/**
 The per-frame boulder physics of the Sisyphus clicker: the terrain (a flat
 strip followed by a 30 degree slope), the force model, and `Step`, the value
 the mutable game state takes after one call of `update(deltaTime)`.
 All quantities are exact reals; the trigonometric values of the two terrain
 angles are constants.
 */
module Physics {

  const BOULDER_RADIUS: real := 50.0
  const GRAVITY: real := 9.8
  const FRICTION: real := 0.3
  const PUSH_FORCE: real := 500.0
  /** Width of the flat strip at the left edge of the canvas. */
  const FLAT_WIDTH: real := 100.0
  /** The snap-to-zero deadband of the velocity; zero, so it never fires. */
  const VELOCITY_THRESHOLD: real := 0.0

  /** The two terrain angles: 0 on the flat strip, pi/6 on the slope. */
  datatype Angle = Flat | Slope

  /**
   Canvas dimensions and cos(pi/6), the one irrational constant of the model,
   known only to lie within a thousandth of its value (see CosPiOver6InBounds).
   */
  datatype Terrain = Terrain(width: real, height: real, cosSlope: real) {
    predicate Valid() {
      && width > FLAT_WIDTH
      && height > BOULDER_RADIUS
      && 0.866 < cosSlope < 0.867
    }
  }

  /** The record the simulation mutates each frame. */
  datatype GameState = GameState(
    boulderX: real,
    boulderY: real,
    boulderVelocityX: real,
    boulderVelocityY: real,
    isRolling: bool)

  /**
   Terrain angle under the boulder: a step at FLAT_WIDTH, not a ramp. Gravity
   pulls the boulder back exactly where the angle is not flat.
   */
  function SlopeAngle(x: real): (a: Angle)
    ensures Sin(a) == 0.0 <==> x <= FLAT_WIDTH
  {
    if x <= FLAT_WIDTH then Flat else Slope
  }

  function Sin(a: Angle): real {
    match a
    case Flat => 0.0
    case Slope => 0.5
  }

  function Cos(t: Terrain, a: Angle): real {
    match a
    case Flat => 1.0
    case Slope => t.cosSlope
  }

  function Abs(v: real): real {
    if v < 0.0 then -v else v
  }

  /**
   Horizontal acceleration of the boulder at terrain angle `a`. A push always
   wins over friction and gravity; without one, friction adds to gravity
   exactly when the boulder moves.
   */
  function Acceleration(t: Terrain, a: Angle, pushing: bool, velocityX: real): (acc: real)
    ensures t.Valid() && pushing ==> acc > 0.0
    ensures t.Valid() && !pushing ==> (acc == -GRAVITY * Sin(a) <==> velocityX == 0.0)
  {
    var gravityForce := GRAVITY * Sin(a);
    var normalForce := GRAVITY * Cos(t, a);
    var frictionForce := FRICTION * normalForce;
    if pushing then
      (PUSH_FORCE * Cos(t, a) - frictionForce - gravityForce) / BOULDER_RADIUS
    else
      -gravityForce + (if velocityX != 0.0 then -frictionForce else 0.0)
  }

  /** The velocity deadband: with a zero threshold it is the identity. */
  function ApplyThreshold(v: real): (r: real)
    ensures r == v
  {
    if Abs(v) < VELOCITY_THRESHOLD then 0.0 else v
  }

  /**
   Y of the boulder's centre when it rests on the ground at `x`. The ground
   never lies below the flat strip.
   */
  function GroundY(t: Terrain, x: real): (y: real)
    requires t.Valid()
    ensures y <= t.height - BOULDER_RADIUS
  {
    if x <= FLAT_WIDTH then
      t.height - BOULDER_RADIUS
    else
      var slopeHeight := t.height - BOULDER_RADIUS;
      var slopeWidth := t.width - FLAT_WIDTH;
      t.height - BOULDER_RADIUS - (x - FLAT_WIDTH) * (slopeHeight / slopeWidth)
  }

  /** The state the boulder starts in and is reset to; resetting keeps the input flag. */
  function InitialState(t: Terrain, isRolling: bool): (s: GameState)
    ensures t.Valid() ==> OnTrack(t, s)
    ensures s.boulderVelocityX == 0.0 && s.boulderVelocityY == 0.0 && s.isRolling == isRolling
  {
    GameState(FLAT_WIDTH / 2.0, t.height - BOULDER_RADIUS, 0.0, 0.0, isRolling)
  }

  /** Position between the left clamp and the top, with Y read off the terrain. */
  predicate OnTrack(t: Terrain, s: GameState)
    requires t.Valid()
  {
    && FLAT_WIDTH / 2.0 <= s.boulderX <= t.width - BOULDER_RADIUS
    && s.boulderY == GroundY(t, s.boulderX)
  }

  /** Velocity after integrating the acceleration over `dt` seconds. */
  function IntegratedVelocity(t: Terrain, s: GameState, dt: real): (v: real)
    ensures dt == 0.0 ==> v == s.boulderVelocityX
    ensures t.Valid() && s.isRolling && dt > 0.0 ==> v > s.boulderVelocityX
  {
    var a := Acceleration(t, SlopeAngle(s.boulderX), s.isRolling, s.boulderVelocityX);
    ApplyThreshold(s.boulderVelocityX + a * dt)
  }

  /** Position after integrating the new velocity, before clamp and reset. */
  function IntegratedX(t: Terrain, s: GameState, dt: real): (x: real)
    ensures dt == 0.0 ==> x == s.boulderX
    ensures t.Valid() && s.isRolling && s.boulderVelocityX >= 0.0 && dt > 0.0 ==> x > s.boulderX
  {
    s.boulderX + IntegratedVelocity(t, s, dt) * dt
  }

  /**
   One frame of `update(dt)`: integrate velocity and position, put Y on the
   terrain, clamp at the start point, and reset after passing the top.
   */
  function Step(t: Terrain, s: GameState, dt: real): (r: GameState)
    requires t.Valid()
    ensures OnTrack(t, r)
    ensures r.isRolling == s.isRolling
    ensures r.boulderVelocityY == 0.0 || r.boulderVelocityY == s.boulderVelocityY
  {
    var v := IntegratedVelocity(t, s, dt);
    var x := IntegratedX(t, s, dt);
    var y := GroundY(t, x);
    var clamped := x < FLAT_WIDTH / 2.0;
    var x' := if clamped then FLAT_WIDTH / 2.0 else x;
    var v' := if clamped then 0.0 else v;
    if x' > t.width - BOULDER_RADIUS then
      InitialState(t, s.isRolling)
    else
      GameState(x', y, v', s.boulderVelocityY, s.isRolling)
  }

  /**
   `Step` applied once per delta, in order. After at least one frame the
   boulder is on the track, whatever the deltas were; the input flag is never
   changed.
   */
  function Run(t: Terrain, s: GameState, dts: seq<real>): (r: GameState)
    requires t.Valid()
    ensures OnTrack(t, s) || dts != [] ==> OnTrack(t, r)
    ensures r.isRolling == s.isRolling
    decreases |dts|
  {
    if dts == [] then s else Run(t, Step(t, s, dts[0]), dts[1..])
  }

  // ---------------------------------------------------------------------
  // Trigonometric constants

  /** The exact cos(pi/6), the positive root of 3/4, lies within the bounds Terrain.Valid demands. */
  lemma CosPiOver6InBounds(c: real)
    requires 0.0 < c && c * c == 0.75
    ensures 0.866 < c < 0.867
  {
  }

  // ---------------------------------------------------------------------
  // Terrain

  /** The angle is 0 up to and including FLAT_WIDTH and pi/6 beyond it, with sin 0 and 1/2. */
  lemma SlopeAngleIsStep(x: real)
    ensures SlopeAngle(x) == Flat <==> x <= FLAT_WIDTH
    ensures Sin(SlopeAngle(x)) == (if x <= FLAT_WIDTH then 0.0 else 0.5)
  {
  }

  /** The flat angle is used exactly where the ground is at its lowest, flat height. */
  lemma AngleMatchesGround(t: Terrain, x: real)
    requires t.Valid()
    ensures SlopeAngle(x) == Flat <==> GroundY(t, x) == t.height - BOULDER_RADIUS
  {
  }

  /** Beyond the flat strip the ground is strictly higher (smaller Y) than on it. */
  lemma SlopeDropPositive(t: Terrain, x: real)
    requires t.Valid()
    requires x > FLAT_WIDTH
    ensures GroundY(t, x) < t.height - BOULDER_RADIUS
  {
  }

  /**
   The ground rises (Y falls) as X grows, strictly on the slope, and never
   faster than the slope's gradient, so there is no jump at FLAT_WIDTH.
   */
  lemma GroundYDecreasing(t: Terrain, x1: real, x2: real)
    requires t.Valid()
    requires x1 <= x2
    ensures GroundY(t, x2) <= GroundY(t, x1)
    ensures FLAT_WIDTH < x2 && x1 < x2 ==> GroundY(t, x2) < GroundY(t, x1)
    ensures GroundY(t, x1) - GroundY(t, x2) <= (x2 - x1) * ((t.height - BOULDER_RADIUS) / (t.width - FLAT_WIDTH))
  {
    var g := (t.height - BOULDER_RADIUS) / (t.width - FLAT_WIDTH);
    assert g > 0.0;
    if x1 <= FLAT_WIDTH < x2 {
      assert GroundY(t, x1) - GroundY(t, x2) == (x2 - FLAT_WIDTH) * g;
      assert (x2 - x1) * g - (x2 - FLAT_WIDTH) * g == (FLAT_WIDTH - x1) * g;
    } else if FLAT_WIDTH < x1 {
      assert GroundY(t, x1) - GroundY(t, x2) == (x2 - x1) * g;
      assert (x2 - x1) * g >= 0.0;
      assert x1 < x2 ==> (x2 - x1) * g > 0.0;
    }
  }

  /** On the slope the ground rises linearly: Y falls by exactly the gradient per unit of X. */
  lemma GroundYLinearOnSlope(t: Terrain, x1: real, x2: real)
    requires t.Valid()
    requires FLAT_WIDTH < x1 && FLAT_WIDTH < x2
    ensures GroundY(t, x1) - GroundY(t, x2) == (x2 - x1) * ((t.height - BOULDER_RADIUS) / (t.width - FLAT_WIDTH))
  {
  }

  /** The slope reaches the top edge of the canvas (Y == 0) at its right edge. */
  lemma GroundYAtTop(t: Terrain)
    requires t.Valid()
    ensures GroundY(t, t.width) == 0.0
  {
  }

  /** A boulder on the track has its centre inside the canvas: 0 < Y <= height - radius. */
  lemma OnTrackInsideCanvas(t: Terrain, s: GameState)
    requires t.Valid()
    requires OnTrack(t, s)
    ensures 0.0 < s.boulderY <= t.height - BOULDER_RADIUS
  {
  }

  // ---------------------------------------------------------------------
  // Forces

  /** On the flat, pushing gives (500 - 0.3 * 9.8) / 50 whatever the velocity. */
  lemma FlatPushAcceleration(t: Terrain, velocityX: real)
    ensures Acceleration(t, Flat, true, velocityX) == (500.0 - 2.94) / 50.0
  {
  }

  /**
   Without a push, friction always points towards the left, and its effect
   does not depend on the velocity's sign: moving left, it speeds the boulder up.
   */
  lemma FrictionOnlyWhenMoving(t: Terrain, a: Angle, velocityX: real)
    requires t.Valid()
    ensures Acceleration(t, a, false, velocityX) <= Acceleration(t, a, false, 0.0)
    ensures Acceleration(t, a, false, velocityX) == Acceleration(t, a, false, -velocityX)
  {
  }

  /** Coasting on the flat decelerates by 0.3 * 9.8 per second, even when moving left. */
  lemma CoastingOnFlat(t: Terrain, velocityX: real)
    requires velocityX != 0.0
    ensures Acceleration(t, Flat, false, velocityX) == -2.94
  {
  }

  /** The zero deadband lets the velocity overshoot past zero in one large step. */
  lemma CoastingOvershoots(t: Terrain, s: GameState, dt: real)
    requires !s.isRolling && s.boulderX <= FLAT_WIDTH
    requires 0.0 < s.boulderVelocityX < 2.94 * dt
    ensures IntegratedVelocity(t, s, dt) == s.boulderVelocityX - 2.94 * dt
    ensures IntegratedVelocity(t, s, dt) < 0.0
  {
  }

  // ---------------------------------------------------------------------
  // One frame

  /** Driving X below FLAT_WIDTH / 2 leaves the boulder exactly at the start point, at rest. */
  lemma LeftClamp(t: Terrain, s: GameState, dt: real)
    requires t.Valid()
    requires IntegratedX(t, s, dt) < FLAT_WIDTH / 2.0
    ensures Step(t, s, dt) == GameState(FLAT_WIDTH / 2.0, t.height - BOULDER_RADIUS, 0.0, s.boulderVelocityY, s.isRolling)
  {
  }

  /** Driving X past width - radius resets position and both velocities. */
  lemma TopReset(t: Terrain, s: GameState, dt: real)
    requires t.Valid()
    requires IntegratedX(t, s, dt) > t.width - BOULDER_RADIUS
    ensures Step(t, s, dt) == InitialState(t, s.isRolling)
  {
  }

  /** Between the clamp and the top, the integrated motion is kept as it is. */
  lemma FreeMotion(t: Terrain, s: GameState, dt: real)
    requires t.Valid()
    requires FLAT_WIDTH / 2.0 <= IntegratedX(t, s, dt) <= t.width - BOULDER_RADIUS
    ensures Step(t, s, dt).boulderX == IntegratedX(t, s, dt)
    ensures Step(t, s, dt).boulderVelocityX == s.boulderVelocityX + Acceleration(t, SlopeAngle(s.boulderX), s.isRolling, s.boulderVelocityX) * dt
    ensures Step(t, s, dt).boulderVelocityY == s.boulderVelocityY
  {
  }

  /** The vertical velocity is never set to anything but zero. */
  lemma VerticalVelocityStaysZero(t: Terrain, s: GameState, dt: real)
    requires t.Valid()
    requires s.boulderVelocityY == 0.0
    ensures Step(t, s, dt).boulderVelocityY == 0.0
  {
  }

  /** A frame with zero elapsed time leaves a boulder on the track unchanged. */
  lemma ZeroDeltaIsIdentity(t: Terrain, s: GameState)
    requires t.Valid()
    requires OnTrack(t, s)
    ensures Step(t, s, 0.0) == s
  {
  }

  /** Resting at the start point without a push is a fixed point, for any elapsed time. */
  lemma RestIsFixedPoint(t: Terrain, s: GameState, dt: real)
    requires t.Valid()
    requires s == InitialState(t, false)
    ensures Step(t, s, dt) == s
  {
  }

  /** Resting at the start point without a push stays put over any number of frames. */
  lemma {:induction false} RestStaysAtRest(t: Terrain, s: GameState, dts: seq<real>)
    requires t.Valid()
    requires s == InitialState(t, false)
    ensures Run(t, s, dts) == s
  {
    if dts != [] {
      RestIsFixedPoint(t, s, dts[0]);
      RestStaysAtRest(t, s, dts[1..]);
    }
  }

  /**
   The first push from rest on the flat, for one second: the velocity becomes
   (500 - 2.94) / 50 and X moves by the same amount, still on the flat.
   */
  lemma PushFromRest(t: Terrain)
    requires t.Valid()
    requires t.width >= 110.0
    ensures Step(t, InitialState(t, true), 1.0)
         == GameState(50.0 + (500.0 - 2.94) / 50.0, t.height - BOULDER_RADIUS, (500.0 - 2.94) / 50.0, 0.0, true)
  {
  }
}
