# Sisyphus clicker: a verified model of the boulder simulation

The game shows a boulder at the left end of a canvas. The ground there is a
flat strip 100 units wide, and beyond it a slope climbs to the top-right
corner of the canvas. While the player holds the mouse button or a finger
down, the boulder is pushed uphill. Otherwise gravity and friction act on it.
Once per display frame, `createGame` in `src/game.ts` runs `update(deltaTime)`
on one mutable state record:

- it takes the terrain angle under the boulder: 0 on the flat, pi/6 on the slope;
- it computes an acceleration with separate pushing and not-pushing branches;
- it integrates the velocity, then the position;
- it reads Y off the terrain;
- it clamps the boulder at the start point and resets it once it passes the top.

The frame loop turns browser timestamps into a delta in seconds. The first
frame gets a delta of zero.

This project models that core in three modules:

- `Physics` (`physics.dfy`) holds the constants, the `Angle` (`Flat | Slope`),
  the `Terrain` (canvas width and height, and cos(pi/6)) and the `GameState`
  record. It also holds the pure function `Step`, which is the state after one
  `update`, and the lemmas about terrain, forces and frames.
- `FrameClock` (`timing.dfy`) holds the `lastTime`/`deltaTime` bookkeeping of
  `gameLoop` as a function. Lemmas about sequences of frames go with it.
- `Game` (`game.dfy`) holds the class `Game`. Its fields are those of
  `GameState`, plus `lastTime` and the constant `terrain` (canvas size and
  cos(pi/6)). Its methods follow the source step by step:
  `Update` is `update`, `ResetBoulder` is `resetBoulder`, `Press` and `Release`
  are the effects of the input listeners, and `Tick` is one call of
  `gameLoop`. Each method is proved against the `Physics`/`FrameClock`
  functions. It also keeps the class invariant: the boulder is on the track and
  its vertical velocity is 0.

All quantities are exact `real`s. sin 0 = 0, cos 0 = 1 and sin(pi/6) = 1/2 are
exact. cos(pi/6) is kept as `Terrain.cosSlope`, a real known to lie in
(0.866, 0.867). The lemma `CosPiOver6InBounds` proves that the true value, the
positive root of 3/4, lies in that interval. So every result proved about the
model holds for the exact cosine too.

Without a push, src/game.ts:64 subtracts the friction term from the
acceleration whenever `boulderVelocityX !== 0`, whatever the sign of the
velocity. So friction always points left, and a boulder rolling back down is
sped up by it rather than slowed. The model keeps this behaviour as written:
`Physics.FrictionOnlyWhenMoving` and `Physics.CoastingOnFlat` state it.

## Model

| member | source | states |
|---|---|---|
| `Physics.SlopeAngle` | src/game.ts:43-46 | The getSlopeAngle step function. Its sine, and so the gravity term, is 0 exactly when x <= 100. `SlopeAngleIsStep` and `AngleMatchesGround` specify it further. |
| `Physics.SlopeAngleIsStep` | src/game.ts:43-46 | The angle is 0 exactly when x <= 100 and pi/6 otherwise. Its sine is 0 or 1/2 accordingly. It jumps at 100 and is not a ramp. |
| `Physics.AngleMatchesGround` | src/game.ts:43-46 | The angle used for the forces is Flat exactly where the ground height equals the flat height `height - radius`, in both directions. |
| `Physics.CosPiOver6InBounds` | src/game.ts:45 | The positive real whose square is 3/4, which is cos(pi/6), lies within the bounds on `cosSlope` that the model assumes. |
| `Physics.ApplyThreshold` | src/game.ts:70-74 | The velocity deadband with threshold 0 never changes the velocity, because `abs(v) < 0` is never true. |
| `Physics.Acceleration` | src/game.ts:49-65 | The force model. Pushing always gives a positive (uphill) acceleration, on the flat and on the 30 degree slope. Without a push the acceleration is -g*sin(angle) exactly when vX = 0. `FlatPushAcceleration`, `FrictionOnlyWhenMoving` and `CoastingOnFlat` specify it further. |
| `Physics.FlatPushAcceleration` | src/game.ts:52-61 | Pushing on the flat gives acceleration (500 - 0.3*9.8)/50, whatever the velocity. |
| `Physics.FrictionOnlyWhenMoving` | src/game.ts:62-65 | Without a push, friction always points left, and the acceleration is the same for v and -v. |
| `Physics.CoastingOnFlat` | src/game.ts:52-65 | Coasting on the flat with non-zero velocity gives acceleration exactly -2.94, also when moving left. |
| `Physics.CoastingOvershoots` | src/game.ts:64-74 | A coasting step longer than v/2.94 drives the velocity below zero. The deadband does not snap it to zero. |
| `Physics.IntegratedVelocity` | src/game.ts:67-74 | The velocity after `+= acceleration * deltaTime` and the deadband. A zero delta keeps it, and a push over a positive delta strictly increases it. |
| `Physics.IntegratedX` | src/game.ts:76-77 | The position after `+= velocity * deltaTime`. A zero delta keeps it, and a push from rest or from rightward motion over a positive delta strictly increases it. |
| `Physics.GroundY` | src/game.ts:79-86 | Y from X: the flat branch and the linear slope branch. The ground never lies below the flat strip. `SlopeDropPositive`, `GroundYDecreasing` and `GroundYAtTop` specify it further. |
| `Physics.InitialState` | src/game.ts:21-34 | The start state (also the reset state) is on the track, with both velocities 0 and the given input flag. |
| `Physics.Step` | src/game.ts:48-98 | After one update the boulder is on the track: flatWidth/2 <= X <= width - radius, and Y = GroundY(X) in both the flat and slope branches, including after clamp and reset. `isRolling` is unchanged. `boulderVelocityY` is either kept or set to 0. |
| `Physics.SlopeDropPositive` | src/game.ts:80-86 | Beyond the flat strip the boulder's Y is strictly less than the flat height. |
| `Physics.GroundYDecreasing` | src/game.ts:80-86 | Y never increases as X grows, and strictly decreases on the slope. Y drops by at most (x2 - x1) times the slope's gradient (height - radius)/(width - 100), so there is no jump at the end of the flat. |
| `Physics.GroundYLinearOnSlope` | src/game.ts:82-86 | On the slope Y falls linearly: between any two points beyond the flat it changes by exactly (x2 - x1) times the gradient (height - radius)/(width - 100). |
| `Physics.GroundYAtTop` | src/game.ts:83-85 | The slope formula gives Y = 0 at X = width. |
| `Physics.OnTrackInsideCanvas` | src/game.ts:80-97 | A boulder on the track has 0 < Y <= height - radius. |
| `Physics.LeftClamp` | src/game.ts:88-92 | If the integrated X is below 50, the result has X = 50, vX = 0 and Y = height - radius exactly. |
| `Physics.TopReset` | src/game.ts:94-97 | If the integrated X exceeds width - radius, the result is the initial state: X = 50, Y = height - radius, vX = vY = 0, with `isRolling` kept. |
| `Physics.FreeMotion` | src/game.ts:67-77 | Between those bounds, the new X and vX are the integrated ones, v + a*dt and x + v'*dt, and vY is untouched. |
| `Physics.VerticalVelocityStaysZero` | src/game.ts:21-34 | Starting from vY = 0, an update leaves vY = 0. |
| `Physics.ZeroDeltaIsIdentity` | src/game.ts:48-98 | A zero-length frame leaves a boulder on the track unchanged. |
| `Physics.RestIsFixedPoint` | src/game.ts:62-97 | At X = 50 with vX = 0 and no push, an update of any length leaves the state unchanged. |
| `Physics.RestStaysAtRest` | src/game.ts:130-140 | The same holds over any sequence of frames. |
| `Physics.Run` | src/game.ts:130-140 | Repeated updates. After one or more frames the boulder is on the track, whatever the deltas, and `isRolling` never changes. |
| `Physics.PushFromRest` | src/game.ts:48-98 | From the initial state, pushing for one second gives vX = (500 - 2.94)/50 and X = 50 + (500 - 2.94)/50. The boulder stays on the flat with Y = height - radius and vY = 0, on any canvas at least 110 wide. |
| `FrameClock.FrameDelta` | src/game.ts:128-135 | The delta is 0 when there is no previous timestamp. Otherwise it is the number of seconds with lastTime + 1000*dt = timestamp. |
| `FrameClock.Deltas` | src/game.ts:130-135 | A sequence of frames yields one delta per frame. |
| `FrameClock.DeltaAt` | src/game.ts:131-135 | Frame i gets the delta measured from frame i-1, or from the initial `lastTime` for frame 0. |
| `FrameClock.FirstFrameIsZero` | src/game.ts:131-134 | The first frame of a session gets delta 0. |
| `FrameClock.DeltasTelescope` | src/game.ts:134-135 | From a baseline, the deltas sum to (last timestamp - baseline)/1000. |
| `FrameClock.TotalSimulatedTime` | src/game.ts:128-135 | Over a session, the simulated seconds equal (last - first timestamp)/1000. |
| `FrameClock.DeltasNonNegative` | src/game.ts:134 | With non-decreasing timestamps every delta is >= 0. |
| `Game.Game.constructor` | src/game.ts:21-27 | The initial state is X = 50, Y = height - radius, both velocities 0, not rolling, and no previous frame. |
| `Game.Game.ResetBoulder` | src/game.ts:29-34 | Restores the start position and both velocities. It does not touch `isRolling`. |
| `Game.Game.Press` | src/game.ts:37 | mousedown (line 37) and touchstart (line 39) set `isRolling` and change nothing else. The class invariant is kept. |
| `Game.Game.Release` | src/game.ts:38 | mouseup (line 38) and touchend (line 40) clear `isRolling` and change nothing else. The class invariant is kept. |
| `Game.Game.Update` | src/game.ts:48-98 | The new state is `Step` of the old one. Only position and velocities are in its frame, so `isRolling` and `lastTime` are untouched. It keeps the class invariant. |
| `Game.Game.Tick` | src/game.ts:128-137 | `lastTime` becomes the timestamp. The state becomes `Step` with the delta from `FrameDelta`. On the first frame the state is unchanged. |

## Left out

- Rendering (`draw`, src/game.ts:100-126): pure presentation. It has no effect on the state.
- `requestAnimationFrame` scheduling and `start` (src/game.ts:139, 143-146): the browser drives the loop. One frame is one call of `Game.Tick`. For a sequence of frames, `FrameClock.Deltas` gives the delta of each frame (`DeltaAt`) and `Physics.Run` the state after them. No lemma states that n calls of `Tick` equal `Run` over `Deltas`; that follows one frame at a time from `Tick`'s contract.
- `addEventListener` wiring (src/game.ts:36-41): DOM events. Only their effects are modelled, as `Press` and `Release`.
- `src/index.ts`: the window-load bootstrap and canvas lookup. It has no logic.
- IEEE-754 doubles: the model uses exact reals. Rounding, signed zero and NaN are not modelled. The scenario value that prints as about 9.9412 is the exact rational (500 - 2.94)/50.
- `Math.sin` and `Math.cos`: the two angles are a datatype and their sines and cosines are constants. cos(pi/6) is only bounded, so no result relies on its exact value.
- Canvas dimensions are reals, not the integers a canvas has. The model requires width > 100 and height > 50. At width = 100, `GroundY` would divide by zero. The source does evaluate its slope formula there: line 85 divides by zero and gives Y = -Infinity. But any X above 100 is also above width - radius = 50, so the reset at lines 95-96 overwrites Y, and the boulder resets on every rightward move. With height <= 50 the slope would not rise.

