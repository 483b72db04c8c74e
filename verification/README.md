# Car soccer: a verified model of the per-frame physics

This project models the game logic of a small car-and-ball soccer game
written in TypeScript on top of three.js. All numbers are Dafny `real`.

- **Ball** (`src/Ball.ts`): the ball moves by velocity·dt. It then checks
  the side walls (x), the floor and ceiling (y) and the back walls (z), in
  that order. A hit on an axis undoes that axis's move with the *current*
  velocity. The velocity is then reflected about the wall's unit normal
  and scaled by 0.8. Gravity (−15·dt on vy) applies only when neither
  floor nor ceiling was hit. `reset` puts the ball back at its spawn point
  and throws it at a random horizontal angle. `updateShadow` keeps the
  shadow at height 0.01.
- **Car** (`src/Car.ts`): the car moves by vz·dt along its own forward
  axis. It moves back by the same amount when that took it out of the
  arena. `reset` puts it back at its spawn point, unrotated and at rest.
- **Match controller** (`src/CarSoccer.ts`) covers:
  - the two-axis keyboard input vector;
  - throttle with an undo-style speed cap, and coasting;
  - steering;
  - the car-ball collision, which replaces the ball's velocity;
  - the goal test, which resets car and ball.

Layout: `vectors.dfy` (module `Vectors`: the parts of three.js's vector
type that the game uses), `ball.dfy` (module `BallPhysics`), `car.dfy`
(module `CarPhysics`) and `soccer.dfy` (module `Match`).

The stateful parts are classes (`Ball`, `Car`, `CarSoccer`) whose fields
are updated in place, as in the source. Each method is proved against a
pure function of the old state: `BallPhysics.Step`, `CarPhysics.CarStep`,
`Match.KeyDown`/`Match.KeyUp` and `Match.Frame`. The game's properties
are proved as lemmas about those functions. The controller's invariant
(`Match.Invariant`, the class's `Valid()`) is established by the `CarSoccer`
constructor and kept by `OnKeyDown`, `OnKeyUp` and `Update`:
- input axes in {−1, 0, 1};
- car velocity along z only;
- a flat unit heading;
- the car inside the arena and at its spawn height.

Square roots never appear in the model:
- A length that the source computes with `length()` enters as a parameter
  `len` together with `IsLength(v, len)`, meaning `len ≥ 0` and
  `len² = |v|²`.
- The speed-cap test `length() > 40` compares squared lengths.
  `Vectors.CompareLength` shows that this is the same test.

## Model

| member | source | states |
|---|---|---|
| Vectors.Normalize | src/CarSoccer.ts:150 | normalize of a non-zero vector has length 1 and points along the input (its dot product with the input is the input's length); a vector of length 0 is returned unchanged, as dividing by `length() \|\| 1` does |
| Vectors.CompareLength | src/CarSoccer.ts:126 | comparing a length with a bound is the same as comparing the squared length with the squared bound, both ways |
| Vectors.FlatLength | src/CarSoccer.ts:147 | a velocity with x = y = 0 has length exactly \|vz\| |
| Vectors.FlatIsLength | src/CarSoccer.ts:147 | \|vz\| is the length of a velocity (0, 0, vz) |
| BallPhysics.LaunchVelocity | src/Ball.ts:37-45 | the reset velocity has vy = 15 and vx² + vz² = 25² for any angle on the unit circle |
| BallPhysics.ShadowOffset | src/Ball.ts:96-100 | the shadow offset is vertical only, and puts the shadow at world height 0.01 |
| BallPhysics.Reflect | src/Ball.ts:103-111 | defines reflectVector's result v − 2(v·n)n; its properties are the Reflect… lemmas below |
| BallPhysics.Rebound | src/Ball.ts:58 | defines a wall hit's new velocity: the reflection scaled by 0.8 (`BallPhysics.ReboundSpeed`) |
| BallPhysics.Advance | src/Ball.ts:50-52 | defines the integration: the position moves by velocity·dt and the velocity is kept |
| BallPhysics.CheckX | src/Ball.ts:54-64 | defines the side-wall check: x < −37.4 or x > 37.4 moves x back by the current vx·dt and rebounds off (1, 0, 0) or (−1, 0, 0); otherwise nothing changes |
| BallPhysics.CheckY | src/Ball.ts:66-81 | defines the floor/ceiling check: y < 2.6 or y > 32.4 moves y back by the current vy·dt and rebounds off (0, 1, 0) or (0, −1, 0); otherwise gravity adds −15·dt to vy |
| BallPhysics.CheckZ | src/Ball.ts:83-93 | defines the back-wall check: z < −47.4 or z > 47.4 moves z back by the current vz·dt and rebounds off (0, 0, 1) or (0, 0, −1); otherwise nothing changes |
| BallPhysics.Step | src/Ball.ts:47-94 | defines one ball update: Advance, then CheckX, CheckY and CheckZ in that order; `BallPhysics.Ball.Update` is proved against it and the lemmas below state its properties |
| BallPhysics.ReflectAxes | src/Ball.ts:103-111 | reflection about each of the six axis-aligned wall normals negates exactly that component and keeps the other two |
| BallPhysics.ReflectFlipsNormal | src/Ball.ts:103-111 | about a unit normal, reflection negates the normal component and keeps the tangential part |
| BallPhysics.ReflectPreservesLength | src/Ball.ts:103-111 | about a unit normal, reflection keeps the squared length |
| BallPhysics.ReflectInvolution | src/Ball.ts:103-111 | reflecting twice about the same unit normal gives back the original velocity |
| BallPhysics.ReboundSpeed | src/Ball.ts:58 | each wall rebound (reflection then ×0.8) multiplies the squared speed by 0.64 |
| BallPhysics.SideWallBounce | src/Ball.ts:54-64 | a side-wall hit restores x to its value before the frame, leaves velocity 0.8·(−vx, vy, vz) at 0.64 of the squared speed, and x stays restored to the end of the frame |
| BallPhysics.StaysBetweenSideWalls | src/Ball.ts:50-64 | a ball that starts between the side walls ends the frame between them |
| BallPhysics.GravityOnlyInFlight | src/Ball.ts:66-81 | with a floor/ceiling hit vy is reflected and scaled, and no gravity is added; without one only vy changes, by exactly −15·dt |
| BallPhysics.ChecksStayOnTheirAxis | src/Ball.ts:54-93 | each wall check changes the position only along its own axis |
| BallPhysics.AdvanceThenSideWalls | src/Ball.ts:50-64 | after integration and the side-wall check, y and z have moved by exactly velocity·dt |
| BallPhysics.HeightAfterLastChecks | src/Ball.ts:66-93 | on a floor/ceiling hit, y ends the frame moved back by the velocity that check sees, times dt |
| BallPhysics.FloorCeilingUndo | src/Ball.ts:66-76 | the floor/ceiling undo restores y only up to the difference between the integrating velocity and the velocity after the side walls |
| BallPhysics.FloorCeilingRestores | src/Ball.ts:66-76 | without a side-wall hit the floor/ceiling undo restores y exactly |
| BallPhysics.FloorCeilingAfterSideWall | src/Ball.ts:54-76 | after a side-wall hit the floor/ceiling undo leaves y off by 0.2·vy·dt |
| BallPhysics.FloorUndoFallsShort | src/Ball.ts:54-76 | a concrete ball, starting above the floor and hitting a side wall and the floor in one frame, ends the frame below the floor |
| BallPhysics.DepthAfterLastCheck | src/Ball.ts:83-93 | a back-wall hit moves z back by the current vz·dt |
| BallPhysics.DepthBeforeLastCheck | src/Ball.ts:50-81 | the side-wall and floor/ceiling checks leave z where integration put it |
| BallPhysics.BackWallUndo | src/Ball.ts:83-93 | the back-wall undo restores z only up to the difference between the integrating vz and the vz after the first two checks |
| BallPhysics.BackWallRestores | src/Ball.ts:83-93 | without an earlier hit in the frame, the back-wall undo restores z exactly |
| BallPhysics.FreeFlight | src/Ball.ts:50-93 | with no wall hit the ball moves by velocity·dt and only vy changes, by −15·dt |
| BallPhysics.Ball.constructor | src/Ball.ts:11-35 | a new ball stores radius and spawn point and is reset: at the spawn point with the launch velocity |
| BallPhysics.Ball.Reset | src/Ball.ts:37-45 | position becomes the spawn point and velocity the launch velocity; the shadow is not moved; the new state does not depend on the old, so resetting twice equals resetting once |
| BallPhysics.Ball.Update | src/Ball.ts:47-94 | the new position and velocity are Step of the old ones; the shadow is not moved |
| BallPhysics.Ball.UpdateShadow | src/Ball.ts:96-100 | the shadow offset becomes ShadowOffset(position); position and velocity are unchanged |
| BallPhysics.Ball.ReflectVector | src/Ball.ts:103-111 | returns v − 2(v·n)n, together with the value n is overwritten with, 2(v·n)n; the two add up to v |
| CarPhysics.InArena | src/Car.ts:49 | defines the arena the car may not leave: −37.4 ≤ x ≤ 37.4 and −47.4 ≤ z ≤ 47.4 (the negation of the step-back test) |
| CarPhysics.TranslateZ | src/Car.ts:48 | defines translateZ: a move by the given distance along the heading |
| CarPhysics.Turn | src/CarSoccer.ts:140 | defines rotateY on the heading: a rotation about the vertical axis by the angle whose cosine and sine are given (`CarPhysics.TurnKeepsFlatUnit`, `CarPhysics.TurnUndo`) |
| CarPhysics.ResetState | src/Car.ts:37-42 | defines the reset state: spawn point, heading (0, 0, 1), velocity 0 (`CarPhysics.ResetIsAtRest`) |
| CarPhysics.Drive | src/Car.ts:44-54 | the car takes the move when it stays in the arena and is back at its start when it would leave; a car in the arena stays in it; with a flat heading its height is unchanged |
| CarPhysics.CarStep | src/Car.ts:44-54 | a car update changes neither heading nor velocity, keeps a car in the arena inside it, and keeps its height when the heading is flat |
| CarPhysics.OutOfArenaStepsBack | src/Car.ts:48-53 | a move that would leave the arena leaves the whole car state as it was |
| CarPhysics.ResetIsAtRest | src/Car.ts:37-42 | a reset car is at its spawn point, has heading exactly (0, 0, 1), a flat unit heading, and velocity exactly (0, 0, 0) |
| CarPhysics.TurnKeepsFlatUnit | src/CarSoccer.ts:140 | turning about the vertical axis keeps a flat unit heading flat and of length 1 |
| CarPhysics.TurnUndo | src/CarSoccer.ts:140 | turning by an angle and then by its opposite gives back the heading |
| CarPhysics.Car.constructor | src/Car.ts:10-35 | a new car stores spawn point, size and collision radius, and is in its reset state |
| CarPhysics.Car.Reset | src/Car.ts:37-42 | the state becomes ResetState of the spawn point, whatever it was, so resetting twice equals resetting once |
| CarPhysics.Car.Update | src/Car.ts:44-54 | the new state is CarStep of the old one |
| CarPhysics.Car.RotateY | src/CarSoccer.ts:140 | only the heading changes, turned by the given angle |
| Match.KeyOf | src/CarSoccer.ts:188-216 | defines which key a `key` string names: "w"/"ArrowUp", "s"/"ArrowDown", "a"/"ArrowLeft", "d"/"ArrowRight", " " and any other string |
| Match.KeyDown | src/CarSoccer.ts:188-203 | defines onKeyDown's effect on the input vector (`Match.KeyDownSetsOneAxis`) |
| Match.KeyUp | src/CarSoccer.ts:207-216 | defines onKeyUp's effect: an axis is cleared only while it holds the value this key's press gave it (`Match.ReleaseAfterPress`, `Match.StaleReleaseKeepsNewerPress`) |
| Match.KeyDownSetsOneAxis | src/CarSoccer.ts:188-203 | w/Up sets y = 1, s/Down y = −1, a/Left x = −1, d/Right x = 1, each leaving the other axis alone; space and other keys leave the input unchanged |
| Match.ReleaseAfterPress | src/CarSoccer.ts:188-216 | releasing a direction key right after pressing it clears its axis and leaves the other |
| Match.StaleReleaseKeepsNewerPress | src/CarSoccer.ts:207-216 | releasing a key after the opposite key was pressed keeps the opposite key's value; space and other keys never change the input on release |
| Match.ReleaseIdempotent | src/CarSoccer.ts:207-216 | releasing a key twice equals releasing it once |
| Match.ReleaseOnlyClears | src/CarSoccer.ts:207-216 | a release leaves each axis as it was or sets it to 0 |
| Match.KeysKeepAxes | src/CarSoccer.ts:188-216 | a key press or release keeps both axes in {−1, 0, 1} |
| Match.ReplayKeepsAxes | src/CarSoccer.ts:188-216 | under any sequence of key presses and releases both axes stay in {−1, 0, 1} |
| Match.OtherAxisKeysKeepY | src/CarSoccer.ts:188-216 | any sequence of a/d events leaves the y axis unchanged |
| Match.OtherAxisKeysKeepX | src/CarSoccer.ts:188-216 | any sequence of w/s events leaves the x axis unchanged |
| Match.Throttle | src/CarSoccer.ts:125-128 | only vz changes; when vz + (−y·75·dt) gives a speed of at most 40 that increment is kept, and when it gives a speed above 40 the velocity is exactly as before |
| Match.ThrottleKeepsCap | src/CarSoccer.ts:125-128 | for a car moving along its axis at speed at most 40, the throttle step leaves the speed at most 40 |
| Match.Coast | src/CarSoccer.ts:131-137 | only vz changes; nothing changes while a drive key is held or when vz = 0; with no drive key a positive vz drops by exactly 75·dt and a negative vz rises by exactly 75·dt |
| Match.CoastSlowsDown | src/CarSoccer.ts:131-137 | a coasting car faster than 75·dt loses exactly 75·dt of speed and keeps its direction |
| Match.CoastOvershoots | src/CarSoccer.ts:131-137 | coasting is not clamped: vz = 1 with dt = 0.1 ends the frame below 0 |
| Match.Accelerate | src/CarSoccer.ts:124-137 | defines the car's velocity after one frame of input: Throttle, then Coast (`Match.AccelerateKeepsCap`) |
| Match.AccelerateKeepsCap | src/CarSoccer.ts:124-137 | when 75·dt is at most 40, a frame of throttle and coasting keeps a speed of at most 40 at most 40 |
| Match.TurnAngle | src/CarSoccer.ts:140 | the car does not turn when no steering key or no drive key is held |
| Match.ReverseSteersOpposite | src/CarSoccer.ts:140 | driving backwards turns the opposite way for the same steering key |
| Match.SubtractVectors | src/CarSoccer.ts:247-256 | the result is the vector from p1 to p2: p1 plus it is p2 |
| Match.ImpactDirection | src/CarSoccer.ts:146-156 | with the 0.5 drop added back, the new ball velocity has length vCar + 0.5·vBall and points along car-to-ball |
| Match.ImpactVelocity | src/CarSoccer.ts:146-156 | defines the ball's velocity after a hit: normalized car-to-ball times vCar + 0.5·vBall, minus 0.5 on y (`Match.ImpactDirection`, `Match.ImpactAtZeroDistance`) |
| Match.ImpactAtZeroDistance | src/CarSoccer.ts:146-156 | at distance 0 normalize leaves the car-to-ball vector unscaled, so the ball gets that vector times vCar + 0.5·vBall, minus 0.5 on y |
| Match.Kick | src/CarSoccer.ts:143-157 | defines the collision test: the impact velocity when the distance is below the sum of the radii, the old velocity otherwise (`Match.KickIffOverlap`) |
| Match.KickIffOverlap | src/CarSoccer.ts:143-157 | the ball's velocity is replaced exactly when the squared centre distance is below the squared sum of the radii, and is kept otherwise |
| Match.InGoal | src/CarSoccer.ts:169-183 | defines the goal zones: −12.6 < x < 12.6, 0 < y < 12.6, and z < −46.5 or z > 46.5 |
| Match.Move | src/CarSoccer.ts:124-166 | the frame before the goal test leaves the input alone and puts the shadow at world height 0.01 under the moved ball |
| Match.GoalCheck | src/CarSoccer.ts:168-183 | the goal test never touches input or shadow, and changes nothing when the ball is outside both goal zones |
| Match.GoalResetsBoth | src/CarSoccer.ts:168-183 | a ball in a goal zone makes the car exactly ResetState of its spawn point (position the spawn point, heading (0, 0, 1), velocity 0) and the ball exactly its spawn point with the launch velocity (vy = 15) |
| Match.NoFrameEndsInGoal | src/CarSoccer.ts:168-183 | while the ball's spawn point is outside the goal zones, no frame ends with the ball inside one |
| Match.ShadowAfterFrame | src/CarSoccer.ts:163-183 | the shadow is set from the ball's position before the goal test; without a goal it sits at height 0.01 under the ball at the end of the frame |
| Match.Frame | src/CarSoccer.ts:113-184 | defines one controller update: Move, then GoalCheck; `Match.CarSoccer.Update` is proved against it |
| Match.FrameKeepsInvariant | src/CarSoccer.ts:113-184 | a frame keeps the input axes, a car velocity along z only, a flat unit heading, and the car inside the arena at its spawn height |
| Match.CarSoccer.constructor | src/CarSoccer.ts:12-22 | the car spawns at (0, 1, 45) with collision radius 4 and the ball at (0, 2.6, 0) with radius 2.6, both reset, with no key held; the invariant holds |
| Match.CarSoccer.OnKeyDown | src/CarSoccer.ts:188-203 | the input becomes KeyDown of the key; space resets car and ball and nothing else touches them; the invariant is kept |
| Match.CarSoccer.OnKeyUp | src/CarSoccer.ts:207-217 | the input becomes KeyUp of the key; the invariant is kept |
| Match.CarSoccer.AccelerateCar | src/CarSoccer.ts:124-137 | only the car's velocity changes, to the throttle step followed by coasting |
| Match.CarSoccer.Collide | src/CarSoccer.ts:142-157 | only the ball's velocity changes, to the Kick of the car-to-ball vector |
| Match.CarSoccer.CheckGoal | src/CarSoccer.ts:168-183 | the whole game state becomes GoalCheck of the old one |
| Match.CarSoccer.Update | src/CarSoccer.ts:113-184 | the whole game state becomes Frame of the old one, and the invariant is kept |

## Left out

- Scene building is not modelled, because it is rendering only. This covers `createScene`, `createGoal` (src/CarSoccer.ts:24-111, 220-244) and the mesh and material code in the Ball and Car constructors. GraphicsApp and the frame loop that calls `update` are not part of this model either.
- Square roots are not computed. Match.CarSoccer.Update takes the car-ball distance `dist` and the ball's speed `ballSpeed` as parameters, tied to the state by `IsLength`.
- The car's speed `velocity.length()` is computed as |vz|. The invariant vx = vy = 0 makes that exact (`Vectors.FlatLength`).
- `Math.cos` and `Math.sin` of the turn angle are a parameter `turn` on the unit circle. Update ties `turn` to `Match.TurnAngle` only for a zero angle, where it must be the identity turn.
- `Math.random` and the cosine and sine of the random launch angle are a parameter `launch` on the unit circle.
- `Math.PI` is the literal 3.141592653589793.
- Object3D's rotation is kept as `heading`, the world direction of the car's local +z axis. This is the only use the physics makes of it. The Euler angles themselves are not modelled, and `reset`'s `rotation.set(0, 0, 0)` becomes heading (0, 0, 1).
- IEEE-754 rounding, NaN and infinities are not modelled, because all arithmetic is over the reals. So "stepping back restores the position" holds exactly here but only approximately in floating point. The same goes for the throttle undo.
- BallPhysics.Ball.Update: the three per-coordinate position updates of src/Ball.ts:50-52 are one vector addition. The same holds for each check's undo line, which is one helper call.
- BallPhysics.Ball.ReflectVector: the source overwrites both of its arguments. The model returns both new values instead. In every call the normal is a fresh vector, and the velocity is immediately replaced by the result.
- Keyboard events are reduced to their `key` string.
- Match.CarSoccer.Update: the body of `CarSoccer.update` is split into three methods, `AccelerateCar`, `Collide` and `CheckGoal`, to keep each proof small. The statements and their order are the source's.
- Coasting is not clamped at zero and can overshoot past it (`Match.CoastOvershoots`).
- Over the reals the undo-style cap never takes a speed of at most 40 above 40 (`Match.ThrottleKeepsCap`); only floating-point rounding could.
