/**
 The game object built by `createGame`: the mutable boulder state, the
 previous frame's timestamp, and the operations that change them: the
 per-frame `Update`, the reset, the input handlers and one tick of the frame
 loop. Each method is specified by the pure functions of `Physics` and
 `FrameClock`.
 */
module Game {
  import opened Physics
  import opened FrameClock

  class Game {
    const terrain: Terrain

    var boulderX: real
    var boulderY: real
    var boulderVelocityX: real
    var boulderVelocityY: real
    var isRolling: bool
    /** Timestamp (ms) of the previous frame; None before the first frame. */
    var lastTime: Option<real>

    /** The boulder state as a value. */
    function State(): GameState
      reads this
    {
      GameState(boulderX, boulderY, boulderVelocityX, boulderVelocityY, isRolling)
    }

    /** The boulder is on the track and its vertical velocity is never used. */
    ghost predicate Valid()
      reads this
    {
      && terrain.Valid()
      && OnTrack(terrain, State())
      && boulderVelocityY == 0.0
    }

    /** A canvas of the given size; the boulder rests at the start point, no frame seen yet. */
    constructor (width: real, height: real, cosSlope: real)
      requires Terrain(width, height, cosSlope).Valid()
      ensures Valid()
      ensures terrain == Terrain(width, height, cosSlope)
      ensures State() == InitialState(terrain, false)
      ensures lastTime == None
    {
      terrain := Terrain(width, height, cosSlope);
      boulderX := FLAT_WIDTH / 2.0;
      boulderY := height - BOULDER_RADIUS;
      boulderVelocityX := 0.0;
      boulderVelocityY := 0.0;
      isRolling := false;
      lastTime := None;
    }

    /** Back to the start point at rest; the input flag is left alone. */
    method ResetBoulder()
      requires terrain.Valid()
      modifies this`boulderX, this`boulderY, this`boulderVelocityX, this`boulderVelocityY
      ensures Valid()
      ensures State() == InitialState(terrain, old(isRolling))
    {
      boulderX := FLAT_WIDTH / 2.0;
      boulderY := terrain.height - BOULDER_RADIUS;
      boulderVelocityX := 0.0;
      boulderVelocityY := 0.0;
    }

    /** Mouse-down and touch-start: the player starts pushing. */
    method Press()
      requires Valid()
      modifies this`isRolling
      ensures Valid()
      ensures isRolling
      ensures State() == old(State()).(isRolling := true)
    {
      isRolling := true;
    }

    /** Mouse-up and touch-end: the player stops pushing. */
    method Release()
      requires Valid()
      modifies this`isRolling
      ensures Valid()
      ensures !isRolling
      ensures State() == old(State()).(isRolling := false)
    {
      isRolling := false;
    }

    /**
     One physics frame of `deltaTime` seconds. It changes only the position
     and the velocities; the input flag and the frame clock stay as they are.
     */
    method Update(deltaTime: real)
      requires Valid()
      modifies this`boulderX, this`boulderY, this`boulderVelocityX, this`boulderVelocityY
      ensures Valid()
      ensures State() == Step(terrain, old(State()), deltaTime)
      ensures isRolling == old(isRolling)
    {
      ghost var s := State();
      var angle := SlopeAngle(boulderX);

      var gravityForce := GRAVITY * Sin(angle);
      var normalForce := GRAVITY * Cos(terrain, angle);
      var frictionForce := FRICTION * normalForce;

      var accelerationX := 0.0;
      if isRolling {
        var pushForceX := PUSH_FORCE * Cos(terrain, angle);
        accelerationX := (pushForceX - frictionForce - gravityForce) / BOULDER_RADIUS;
      } else {
        accelerationX := -gravityForce + (if boulderVelocityX != 0.0 then -frictionForce else 0.0);
      }
      assert accelerationX == Acceleration(terrain, angle, s.isRolling, s.boulderVelocityX);

      var velocityX := boulderVelocityX + accelerationX * deltaTime;
      if Abs(velocityX) < VELOCITY_THRESHOLD {
        velocityX := 0.0;
      }
      boulderVelocityX := velocityX;
      assert boulderVelocityX == IntegratedVelocity(terrain, s, deltaTime);

      boulderX := boulderX + boulderVelocityX * deltaTime;
      assert boulderX == IntegratedX(terrain, s, deltaTime);

      if boulderX <= FLAT_WIDTH {
        boulderY := terrain.height - BOULDER_RADIUS;
      } else {
        var slopeHeight := terrain.height - BOULDER_RADIUS;
        var slopeWidth := terrain.width - FLAT_WIDTH;
        boulderY := terrain.height - BOULDER_RADIUS - (boulderX - FLAT_WIDTH) * (slopeHeight / slopeWidth);
      }
      assert boulderY == GroundY(terrain, boulderX);

      if boulderX < FLAT_WIDTH / 2.0 {
        boulderX := FLAT_WIDTH / 2.0;
        boulderVelocityX := 0.0;
      }

      if boulderX > terrain.width - BOULDER_RADIUS {
        ResetBoulder();
      }
    }

    /**
     One call of the frame loop at `timestamp` milliseconds: derive the
     elapsed seconds from the previous frame (zero on the first frame),
     remember the timestamp, and run one physics frame.
     */
    method Tick(timestamp: real)
      requires Valid()
      modifies this`boulderX, this`boulderY, this`boulderVelocityX, this`boulderVelocityY, this`lastTime
      ensures Valid()
      ensures lastTime == Some(timestamp)
      ensures State() == Step(terrain, old(State()), FrameDelta(old(lastTime), timestamp))
      ensures old(lastTime) == None ==> State() == old(State())
    {
      ghost var s := State();
      ghost var previous := lastTime;
      if lastTime == None {
        lastTime := Some(timestamp);
      }
      var deltaTime := (timestamp - lastTime.value) / 1000.0;
      lastTime := Some(timestamp);
      assert deltaTime == FrameDelta(previous, timestamp);

      Update(deltaTime);
      if previous == None {
        ZeroDeltaIsIdentity(terrain, s);
      }
    }
  }
}
