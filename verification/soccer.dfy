/** The match controller (src/CarSoccer.ts): keyboard input, the car's
    throttle, coasting and steering, the car-ball collision, and the goal
    test that puts both back at their spawn points. */
module Match {
  import opened Vectors
  import opened BallPhysics
  import opened CarPhysics

  /** Top speed of the car, in metres per second. */
  const CAR_MAX_SPEED := 40.0
  /** Change of the car's speed per second, under throttle and when coasting. */
  const CAR_ACCEL := 75.0
  /** The double closest to pi. */
  const PI := 3.141592653589793
  /** Turning rate of the car, in radians per second: 3π/2. */
  const CAR_ROTATION := 3.0 * PI / 2.0

  /** Share of the ball's old speed that a hit adds to the car's speed, and
      the drop applied to the new vertical velocity. */
  const KEPT_BALL_SPEED := 0.5
  const KICK_DROP := 0.5

  /** The goal zones: |x| < 12.6, 0 < y < 12.6 and |z| > 46.5. */
  const GOAL_HALF_WIDTH := 12.6
  const GOAL_HEIGHT := 12.6
  const GOAL_LINE := 46.5

  // ---------------------------------------------------------------------
  // Keyboard input

  /** The keys the game reacts to: w/ArrowUp, s/ArrowDown, a/ArrowLeft,
      d/ArrowRight and the space bar. */
  datatype Key = Up | Down | Left | Right | Space | Other

  /** The key named by a KeyboardEvent's `key` string. */
  function KeyOf(name: string): Key {
    if name == "w" || name == "ArrowUp" then Up
    else if name == "s" || name == "ArrowDown" then Down
    else if name == "a" || name == "ArrowLeft" then Left
    else if name == "d" || name == "ArrowRight" then Right
    else if name == " " then Space
    else Other
  }

  predicate IsAxis(r: real) {
    r == -1.0 || r == 0.0 || r == 1.0
  }

  /** Both axes of the input vector are -1, 0 or 1. */
  predicate ValidInput(i: Vec2) {
    IsAxis(i.x) && IsAxis(i.y)
  }

  /** The input vector after onKeyDown. */
  function KeyDown(i: Vec2, k: Key): Vec2 {
    match k
    case Up => i.(y := 1.0)
    case Down => i.(y := -1.0)
    case Left => i.(x := -1.0)
    case Right => i.(x := 1.0)
    case _ => i
  }

  /** The input vector after onKeyUp: an axis is cleared only when it still
      holds the value this key's press gave it. */
  function KeyUp(i: Vec2, k: Key): Vec2 {
    match k
    case Up => if i.y == 1.0 then i.(y := 0.0) else i
    case Down => if i.y == -1.0 then i.(y := 0.0) else i
    case Left => if i.x == -1.0 then i.(x := 0.0) else i
    case Right => if i.x == 1.0 then i.(x := 0.0) else i
    case _ => i
  }

  /** Each direction key sets its axis and leaves the other one alone;
      space and unknown keys leave the input as it is. */
  lemma KeyDownSetsOneAxis(i: Vec2)
    ensures KeyDown(i, Up) == Vec2(i.x, 1.0) && KeyDown(i, Down) == Vec2(i.x, -1.0)
    ensures KeyDown(i, Left) == Vec2(-1.0, i.y) && KeyDown(i, Right) == Vec2(1.0, i.y)
    ensures KeyDown(i, Space) == i && KeyDown(i, Other) == i
  {
  }

  /** Releasing a key right after pressing it clears its axis. */
  lemma ReleaseAfterPress(i: Vec2)
    ensures KeyUp(KeyDown(i, Up), Up) == Vec2(i.x, 0.0)
    ensures KeyUp(KeyDown(i, Down), Down) == Vec2(i.x, 0.0)
    ensures KeyUp(KeyDown(i, Left), Left) == Vec2(0.0, i.y)
    ensures KeyUp(KeyDown(i, Right), Right) == Vec2(0.0, i.y)
  {
  }

  /** Releasing a key whose press was overridden by the opposite key keeps
      the newer press: e.g. w released while s holds y at -1. */
  lemma StaleReleaseKeepsNewerPress(i: Vec2)
    ensures KeyUp(KeyDown(i, Down), Up) == KeyDown(i, Down)
    ensures KeyUp(KeyDown(i, Up), Down) == KeyDown(i, Up)
    ensures KeyUp(KeyDown(i, Right), Left) == KeyDown(i, Right)
    ensures KeyUp(KeyDown(i, Left), Right) == KeyDown(i, Left)
    ensures KeyUp(i, Space) == i && KeyUp(i, Other) == i
  {
  }

  /** Releasing a key twice is the same as releasing it once. */
  lemma ReleaseIdempotent(i: Vec2, k: Key)
    ensures KeyUp(KeyUp(i, k), k) == KeyUp(i, k)
  {
  }

  /** A key release changes at most the key's own axis, and only to 0. */
  lemma ReleaseOnlyClears(i: Vec2, k: Key)
    ensures KeyUp(i, k).x == i.x || KeyUp(i, k).x == 0.0
    ensures KeyUp(i, k).y == i.y || KeyUp(i, k).y == 0.0
  {
  }

  lemma KeysKeepAxes(i: Vec2, k: Key)
    requires ValidInput(i)
    ensures ValidInput(KeyDown(i, k)) && ValidInput(KeyUp(i, k))
  {
  }

  datatype KeyEvent = Press(key: Key) | Release(key: Key)

  function Apply(i: Vec2, e: KeyEvent): Vec2 {
    match e
    case Press(k) => KeyDown(i, k)
    case Release(k) => KeyUp(i, k)
  }

  /** The input vector after a sequence of key events, in order. */
  function Replay(i: Vec2, events: seq<KeyEvent>): Vec2
    decreases |events|
  {
    if events == [] then i else Replay(Apply(i, events[0]), events[1..])
  }

  /** Whatever keys are pressed and released, both axes stay in {-1, 0, 1}. */
  lemma {:induction false} ReplayKeepsAxes(i: Vec2, events: seq<KeyEvent>)
    requires ValidInput(i)
    ensures ValidInput(Replay(i, events))
    decreases |events|
  {
    if events != [] {
      KeysKeepAxes(i, events[0].key);
      ReplayKeepsAxes(Apply(i, events[0]), events[1..]);
    }
  }

  /** No sequence of presses and releases of a and d moves the y axis. */
  lemma {:induction false} OtherAxisKeysKeepY(i: Vec2, events: seq<KeyEvent>)
    requires forall n :: 0 <= n < |events| ==> events[n].key in {Left, Right}
    ensures Replay(i, events).y == i.y
    decreases |events|
  {
    if events != [] {
      assert events[0].key in {Left, Right};
      ReplayTail(events, {Left, Right});
      OtherAxisKeysKeepY(Apply(i, events[0]), events[1..]);
    }
  }

  /** No sequence of presses and releases of w and s moves the x axis. */
  lemma {:induction false} OtherAxisKeysKeepX(i: Vec2, events: seq<KeyEvent>)
    requires forall n :: 0 <= n < |events| ==> events[n].key in {Up, Down}
    ensures Replay(i, events).x == i.x
    decreases |events|
  {
    if events != [] {
      assert events[0].key in {Up, Down};
      ReplayTail(events, {Up, Down});
      OtherAxisKeysKeepX(Apply(i, events[0]), events[1..]);
    }
  }

  lemma ReplayTail(events: seq<KeyEvent>, keys: set<Key>)
    requires events != []
    requires forall n :: 0 <= n < |events| ==> events[n].key in keys
    ensures forall n :: 0 <= n < |events[1..]| ==> events[1..][n].key in keys
  {
    forall n | 0 <= n < |events[1..]|
      ensures events[1..][n].key in keys
    {
      assert events[1..][n] == events[n + 1];
    }
  }

  // ---------------------------------------------------------------------
  // Driving

  /** Lines 125-128: add the throttle's change to vz, and take it back if
      the speed is then above the maximum. The speed test compares squared
      lengths, which is the same test as comparing lengths. */
  function Throttle(v: Vec3, inputY: real, dt: real): (r: Vec3)
    ensures r.x == v.x && r.y == v.y
    ensures r == v
         || (r.z == v.z + -inputY * CAR_ACCEL * dt
             && LengthSq(r) <= CAR_MAX_SPEED * CAR_MAX_SPEED)
    ensures var pushed := v.(z := v.z + -inputY * CAR_ACCEL * dt);
      LengthSq(pushed) <= CAR_MAX_SPEED * CAR_MAX_SPEED ==> r == pushed
    ensures var pushed := v.(z := v.z + -inputY * CAR_ACCEL * dt);
      LengthSq(pushed) > CAR_MAX_SPEED * CAR_MAX_SPEED ==> r == v
  {
    var dv := -inputY * CAR_ACCEL * dt;
    var pushed := v.(z := v.z + dv);
    if LengthSq(pushed) > CAR_MAX_SPEED * CAR_MAX_SPEED then pushed.(z := pushed.z - dv)
    else pushed
  }

  /** Lines 131-137: with no drive key held the car slows down by
      75·dt; it is not clamped at 0. */
  function Coast(v: Vec3, inputY: real, dt: real): (r: Vec3)
    ensures r.x == v.x && r.y == v.y
    ensures inputY != 0.0 || v.z == 0.0 ==> r == v
    ensures inputY == 0.0 && v.z != 0.0 && dt >= 0.0 ==> Abs(r.z - v.z) == CAR_ACCEL * dt
    ensures inputY == 0.0 && v.z > 0.0 ==> r.z == v.z - CAR_ACCEL * dt
    ensures inputY == 0.0 && v.z < 0.0 ==> r.z == v.z + CAR_ACCEL * dt
  {
    if inputY == 0.0 then
      if v.z < 0.0 then v.(z := v.z + CAR_ACCEL * dt)
      else if v.z > 0.0 then v.(z := v.z - CAR_ACCEL * dt)
      else v
    else v
  }

  /** The car's velocity after the input of one frame. */
  function Accelerate(v: Vec3, inputY: real, dt: real): Vec3 {
    Coast(Throttle(v, inputY, dt), inputY, dt)
  }

  /** For a car moving along its axis, the throttle never takes a speed of
      at most 40 above 40. */
  lemma ThrottleKeepsCap(v: Vec3, inputY: real, dt: real)
    requires v.x == 0.0 && v.y == 0.0 && Abs(v.z) <= CAR_MAX_SPEED
    ensures Abs(Throttle(v, inputY, dt).z) <= CAR_MAX_SPEED
  {
    var r := Throttle(v, inputY, dt);
    if r != v {
      var a := Abs(r.z);
      assert a * a == LengthSq(r);
      SquareMonotonic(CAR_MAX_SPEED, a);
    }
  }

  /** A coasting car that is faster than one frame's deceleration loses
      exactly 75·dt of speed and keeps its direction. */
  lemma CoastSlowsDown(v: Vec3, dt: real)
    requires dt >= 0.0 && Abs(v.z) >= CAR_ACCEL * dt
    ensures Abs(Coast(v, 0.0, dt).z) == Abs(v.z) - CAR_ACCEL * dt
    ensures v.z > 0.0 ==> Coast(v, 0.0, dt).z >= 0.0
    ensures v.z < 0.0 ==> Coast(v, 0.0, dt).z <= 0.0
  {
  }

  /** Coasting is not clamped: a car slower than one frame's deceleration
      ends up moving the other way. */
  lemma CoastOvershoots(v: Vec3, dt: real)
    requires v == Vec3(0.0, 0.0, 1.0) && dt == 0.1
    ensures v.z > 0.0 && Coast(v, 0.0, dt).z < 0.0
  {
  }

  /** When one frame's deceleration is at most the top speed, a frame of
      input keeps the car's speed at most 40. */
  lemma AccelerateKeepsCap(v: Vec3, inputY: real, dt: real)
    requires v.x == 0.0 && v.y == 0.0 && Abs(v.z) <= CAR_MAX_SPEED
    requires dt >= 0.0 && CAR_ACCEL * dt <= CAR_MAX_SPEED
    ensures Abs(Accelerate(v, inputY, dt).z) <= CAR_MAX_SPEED
  {
    ThrottleKeepsCap(v, inputY, dt);
  }

  /** The angle the car turns by in one frame (line 140). */
  function TurnAngle(input: Vec2, dt: real): (r: real)
    ensures input.x == 0.0 || input.y == 0.0 ==> r == 0.0
  {
    input.y * -input.x * CAR_ROTATION * dt
  }

  /** Driving backwards turns the other way for the same steering key. */
  lemma ReverseSteersOpposite(x: real, y: real, dt: real)
    ensures TurnAngle(Vec2(x, -y), dt) == -TurnAngle(Vec2(x, y), dt)
  {
    var k := CAR_ROTATION * dt;
    assert TurnAngle(Vec2(x, y), dt) == (y * x) * -k;
    assert TurnAngle(Vec2(x, -y), dt) == (y * x) * k;
  }

  // ---------------------------------------------------------------------
  // Car-ball collision

  /** subtractVectors(p1, p2) is p2 - p1: the vector from p1 to p2. */
  function SubtractVectors(p1: Vec3, p2: Vec3): (v: Vec3)
    ensures Add(p1, v) == p2
  {
    Vec3(p2.x - p1.x, p2.y - p1.y, p2.z - p1.z)
  }

  /** Lines 150-156: the ball leaves along the car-to-ball direction at the
      car's speed plus half its own, then drops 0.5 in y. */
  function ImpactVelocity(carToBall: Vec3, dist: real, carSpeed: real, ballSpeed: real): Vec3
    requires IsLength(carToBall, dist)
  {
    var v := Scale(Normalize(carToBall, dist), carSpeed + ballSpeed * KEPT_BALL_SPEED);
    v.(y := v.y - KICK_DROP)
  }

  /** Undoing the drop gives a vector of length vCar + vBall/2 whose
      component along the car-to-ball direction is all of that length. */
  lemma ImpactDirection(carToBall: Vec3, dist: real, carSpeed: real, ballSpeed: real)
    requires IsLength(carToBall, dist) && dist > 0.0
    ensures var k := carSpeed + ballSpeed * KEPT_BALL_SPEED;
      var lifted := Add(ImpactVelocity(carToBall, dist, carSpeed, ballSpeed), Vec3(0.0, KICK_DROP, 0.0));
      LengthSq(lifted) == k * k && Dot(lifted, carToBall) == k * dist
  {
    var k := carSpeed + ballSpeed * KEPT_BALL_SPEED;
    var u := Normalize(carToBall, dist);
    assert Add(ImpactVelocity(carToBall, dist, carSpeed, ballSpeed), Vec3(0.0, KICK_DROP, 0.0))
        == Scale(u, k);
    ScaleLengthSq(u, k);
    ScaleDot(u, k, carToBall);
  }

  /** When the centres of car and ball coincide (distance 0), normalize
      divides by 1 instead of 0 and leaves the car-to-ball vector as it is:
      the ball gets that vector, scaled by vCar + vBall/2, with the 0.5
      drop. */
  lemma ImpactAtZeroDistance(carToBall: Vec3, dist: real, carSpeed: real, ballSpeed: real)
    requires IsLength(carToBall, dist) && dist == 0.0
    ensures var v := Scale(carToBall, carSpeed + ballSpeed * KEPT_BALL_SPEED);
      ImpactVelocity(carToBall, dist, carSpeed, ballSpeed) == v.(y := v.y - KICK_DROP)
  {
  }

  /** The ball's velocity after the collision test of lines 143-157. */
  function Kick(ballVelocity: Vec3, carToBall: Vec3, dist: real, reach: real,
                carSpeed: real, ballSpeed: real): Vec3
    requires IsLength(carToBall, dist)
  {
    if dist < reach then ImpactVelocity(carToBall, dist, carSpeed, ballSpeed) else ballVelocity
  }

  /** The ball is hit exactly when the squared distance between the centres
      is below the squared sum of the radii; otherwise its velocity is kept. */
  lemma KickIffOverlap(ballVelocity: Vec3, carToBall: Vec3, dist: real, reach: real,
                       carSpeed: real, ballSpeed: real)
    requires IsLength(carToBall, dist) && reach >= 0.0
    ensures LengthSq(carToBall) < reach * reach ==>
      Kick(ballVelocity, carToBall, dist, reach, carSpeed, ballSpeed)
        == ImpactVelocity(carToBall, dist, carSpeed, ballSpeed)
    ensures LengthSq(carToBall) >= reach * reach ==>
      Kick(ballVelocity, carToBall, dist, reach, carSpeed, ballSpeed) == ballVelocity
  {
    CompareLength(carToBall, dist, reach);
  }

  // ---------------------------------------------------------------------
  // Goals

  predicate InGoal(p: Vec3) {
    -GOAL_HALF_WIDTH < p.x < GOAL_HALF_WIDTH && 0.0 < p.y < GOAL_HEIGHT
    && (p.z < -GOAL_LINE || p.z > GOAL_LINE)
  }

  // ---------------------------------------------------------------------
  // One frame of the whole game

  /** What never changes: spawn points and collision radii. */
  datatype Fixture = Fixture(carStart: Vec3, ballStart: Vec3, carRadius: real, ballRadius: real)

  /** Everything CarSoccer.update reads or writes. */
  datatype World = World(input: Vec2, car: CarState, ball: BallState, shadow: Vec3)

  /** Lines 124-166 of CarSoccer.update: input, steering, collision, the
      car's and the ball's own updates and the shadow. `dist` is the
      distance between car and ball at the collision test and `ballSpeed`
      the ball's speed there; `turn` holds the cosine and sine of
      TurnAngle. The car's speed is |vz|, its velocity's length while
      vx = vy = 0. */
  function Move(f: Fixture, w: World, dt: real, dist: real, ballSpeed: real, turn: Angle): (r: World)
    requires IsLength(SubtractVectors(w.car.position, w.ball.position), dist)
    ensures r.input == w.input
    ensures r.ball.position.y + r.shadow.y == SHADOW_LIFT
  {
    var v := Accelerate(w.car.velocity, w.input.y, dt);
    var carToBall := SubtractVectors(w.car.position, w.ball.position);
    var kicked := Kick(w.ball.velocity, carToBall, dist, f.carRadius + f.ballRadius,
                       Abs(v.z), ballSpeed);
    var ball := Step(BallState(w.ball.position, kicked), dt);
    World(w.input, CarStep(CarState(w.car.position, Turn(w.car.heading, turn), v), dt),
          ball, ShadowOffset(ball.position))
  }

  /** Lines 168-183: a ball in either goal zone puts car and ball back at
      their spawn points, the ball thrown at the angle `launch`. The
      shadow is not recomputed. */
  function GoalCheck(f: Fixture, w: World, launch: Angle): (r: World)
    requires OnUnitCircle(launch)
    ensures r.input == w.input && r.shadow == w.shadow
    ensures !InGoal(w.ball.position) ==> r == w
  {
    if InGoal(w.ball.position) then
      w.(car := ResetState(f.carStart), ball := BallState(f.ballStart, LaunchVelocity(launch)))
    else
      w
  }

  /** One CarSoccer.update; `launch` holds the cosine and sine of the
      random angle a goal reset throws the ball at. */
  function Frame(f: Fixture, w: World, dt: real, dist: real, ballSpeed: real,
                 turn: Angle, launch: Angle): World
    requires IsLength(SubtractVectors(w.car.position, w.ball.position), dist)
    requires OnUnitCircle(launch)
  {
    GoalCheck(f, Move(f, w, dt, dist, ballSpeed, turn), launch)
  }

  /** The facts every frame and every key event keep. */
  predicate Invariant(f: Fixture, w: World) {
    ValidInput(w.input)
    && w.car.velocity.x == 0.0 && w.car.velocity.y == 0.0
    && FlatUnit(w.car.heading)
    && InArena(w.car.position) && w.car.position.y == f.carStart.y
    && InArena(f.carStart)
  }

  /** A frame keeps the input axes, a car velocity along its own axis, a
      flat unit heading, the car inside the arena and at its height. */
  lemma FrameKeepsInvariant(f: Fixture, w: World, dt: real, dist: real, ballSpeed: real,
                            turn: Angle, launch: Angle)
    requires IsLength(SubtractVectors(w.car.position, w.ball.position), dist)
    requires OnUnitCircle(launch) && OnUnitCircle(turn)
    requires Invariant(f, w)
    ensures Invariant(f, Frame(f, w, dt, dist, ballSpeed, turn, launch))
  {
    TurnKeepsFlatUnit(w.car.heading, turn);
    ResetIsAtRest(f.carStart);
  }

  /** A goal resets both entities: the car stands at rest at its spawn
      point facing +z, the ball is back at its own and thrown again. */
  lemma GoalResetsBoth(f: Fixture, w: World, launch: Angle)
    requires OnUnitCircle(launch) && InGoal(w.ball.position)
    ensures GoalCheck(f, w, launch).car == ResetState(f.carStart)
    ensures GoalCheck(f, w, launch).ball == BallState(f.ballStart, LaunchVelocity(launch))
    ensures GoalCheck(f, w, launch).car.position == f.carStart
    ensures GoalCheck(f, w, launch).car.heading == FORWARD
    ensures GoalCheck(f, w, launch).car.velocity == ZERO
    ensures GoalCheck(f, w, launch).ball.position == f.ballStart
    ensures GoalCheck(f, w, launch).ball.velocity.y == LAUNCH_LIFT
  {
    ResetIsAtRest(f.carStart);
  }

  /** While the ball's spawn point is outside both goal zones, no frame
      ends with the ball in a goal zone. */
  lemma NoFrameEndsInGoal(f: Fixture, w: World, dt: real, dist: real, ballSpeed: real,
                          turn: Angle, launch: Angle)
    requires IsLength(SubtractVectors(w.car.position, w.ball.position), dist)
    requires OnUnitCircle(launch) && !InGoal(f.ballStart)
    ensures !InGoal(Frame(f, w, dt, dist, ballSpeed, turn, launch).ball.position)
  {
  }

  /** Without a goal the shadow ends the frame at ground height under the
      ball; after a goal it is left where the ball was before the reset. */
  lemma ShadowAfterFrame(f: Fixture, w: World, dt: real, dist: real, ballSpeed: real,
                         turn: Angle, launch: Angle)
    requires IsLength(SubtractVectors(w.car.position, w.ball.position), dist)
    requires OnUnitCircle(launch)
    ensures var m := Move(f, w, dt, dist, ballSpeed, turn);
      var r := Frame(f, w, dt, dist, ballSpeed, turn, launch);
      r.shadow.x == 0.0 && r.shadow.z == 0.0 && m.ball.position.y + r.shadow.y == SHADOW_LIFT
      && (!InGoal(m.ball.position) ==> r.ball.position.y + r.shadow.y == SHADOW_LIFT)
  {
  }

  // ---------------------------------------------------------------------
  // The controller

  class CarSoccer {
    var input: Vec2
    const car: Car
    const ball: Ball

    function Setup(): Fixture
      reads this
    {
      Fixture(car.initialPosition, ball.initialPosition, car.collisionRadius, ball.radius)
    }

    function State(): World
      reads this, car, ball
    {
      World(input, car.State(), ball.State(), ball.shadowPosition)
    }

    predicate Valid()
      reads this, car, ball
    {
      Invariant(Setup(), State())
    }

    /** The scene set-up is not modelled; the car spawns at (0, 1, 45)
        with a 4 x 4 x 5 box and collision radius 4, the ball at
        (0, 2.6, 0) with radius 2.6. */
    constructor (launch: Angle)
      requires OnUnitCircle(launch)
      ensures Valid()
      ensures Setup() == Fixture(Vec3(0.0, 1.0, 45.0), Vec3(0.0, 2.6, 0.0), 4.0, 2.6)
      ensures State() == World(Vec2(0.0, 0.0), ResetState(Vec3(0.0, 1.0, 45.0)),
                               BallState(Vec3(0.0, 2.6, 0.0), LaunchVelocity(launch)), ZERO)
    {
      input := Vec2(0.0, 0.0);
      car := new Car(Vec3(0.0, 1.0, 45.0), Vec3(4.0, 4.0, 5.0), 4.0);
      ball := new Ball(Vec3(0.0, 2.6, 0.0), 2.6, launch);
      new;
      ResetIsAtRest(car.initialPosition);
    }

    method OnKeyDown(key: string, launch: Angle)
      requires Valid() && OnUnitCircle(launch)
      modifies this, car, ball
      ensures Valid()
      ensures input == KeyDown(old(input), KeyOf(key))
      ensures KeyOf(key) == Space ==>
        car.State() == ResetState(car.initialPosition)
        && ball.State() == BallState(ball.initialPosition, LaunchVelocity(launch))
      ensures KeyOf(key) != Space ==> car.State() == old(car.State()) && ball.State() == old(ball.State())
      ensures ball.shadowPosition == old(ball.shadowPosition)
    {
      if key == "w" || key == "ArrowUp" {
        input := input.(y := 1.0);
      } else if key == "s" || key == "ArrowDown" {
        input := input.(y := -1.0);
      } else if key == "a" || key == "ArrowLeft" {
        input := input.(x := -1.0);
      } else if key == "d" || key == "ArrowRight" {
        input := input.(x := 1.0);
      } else if key == " " {
        car.Reset();
        ball.Reset(launch);
        ResetIsAtRest(car.initialPosition);
      }
    }

    method OnKeyUp(key: string)
      requires Valid()
      modifies this
      ensures Valid()
      ensures input == KeyUp(old(input), KeyOf(key))
    {
      if (key == "w" || key == "ArrowUp") && input.y == 1.0 {
        input := input.(y := 0.0);
      } else if (key == "s" || key == "ArrowDown") && input.y == -1.0 {
        input := input.(y := 0.0);
      } else if (key == "a" || key == "ArrowLeft") && input.x == -1.0 {
        input := input.(x := 0.0);
      } else if (key == "d" || key == "ArrowRight") && input.x == 1.0 {
        input := input.(x := 0.0);
      }
    }

    /** Lines 124-137: throttle with the speed cap, then coasting. */
    method AccelerateCar(dt: real)
      modifies car
      ensures car.State() == old(car.State()).(velocity := Accelerate(old(car.velocity), input.y, dt))
    {
      var dv := -input.y * CAR_ACCEL * dt;
      car.velocity := car.velocity.(z := car.velocity.z + dv);
      if LengthSq(car.velocity) > CAR_MAX_SPEED * CAR_MAX_SPEED {
        car.velocity := car.velocity.(z := car.velocity.z - dv);
      }
      if input.y == 0.0 {
        if car.velocity.z < 0.0 {
          car.velocity := car.velocity.(z := car.velocity.z + CAR_ACCEL * dt);
        } else if car.velocity.z > 0.0 {
          car.velocity := car.velocity.(z := car.velocity.z - CAR_ACCEL * dt);
        }
      }
    }

    /** Lines 142-157: the car-ball collision. */
    method Collide(dist: real, ballSpeed: real)
      requires car.velocity.x == 0.0 && car.velocity.y == 0.0
      requires IsLength(SubtractVectors(car.position, ball.position), dist)
      requires IsLength(ball.velocity, ballSpeed)
      modifies ball
      ensures ball.State() == old(ball.State()).(velocity :=
        Kick(old(ball.velocity), SubtractVectors(car.position, old(ball.position)), dist,
             car.collisionRadius + ball.radius, Abs(car.velocity.z), ballSpeed))
      ensures ball.shadowPosition == old(ball.shadowPosition)
    {
      var carToBall := SubtractVectors(car.position, ball.position);
      if dist < car.collisionRadius + ball.radius {
        var vBall := ballSpeed;
        // the car's velocity is (0, 0, vz), whose length is |vz|
        FlatIsLength(car.velocity);
        var vCar := Abs(car.velocity.z);
        ball.velocity := Normalize(carToBall, dist);
        ball.velocity := Scale(ball.velocity, vCar + vBall * KEPT_BALL_SPEED);
        ball.velocity := ball.velocity.(y := ball.velocity.y - KICK_DROP);
      }
    }

    /** Lines 168-183: the goal test. */
    method CheckGoal(launch: Angle)
      requires OnUnitCircle(launch)
      modifies car, ball
      ensures State() == GoalCheck(Setup(), old(State()), launch)
    {
      if -GOAL_HALF_WIDTH < ball.position.x < GOAL_HALF_WIDTH
        && 0.0 < ball.position.y < GOAL_HEIGHT
      {
        if ball.position.z < -GOAL_LINE {
          ball.Reset(launch);
          car.Reset();
        } else if ball.position.z > GOAL_LINE {
          ball.Reset(launch);
          car.Reset();
        }
      }
    }

    method Update(dt: real, dist: real, ballSpeed: real, turn: Angle, launch: Angle)
      requires Valid()
      requires IsLength(SubtractVectors(car.position, ball.position), dist)
      requires IsLength(ball.velocity, ballSpeed)
      requires OnUnitCircle(turn) && (TurnAngle(input, dt) == 0.0 ==> turn == Angle(1.0, 0.0))
      requires OnUnitCircle(launch)
      modifies car, ball
      ensures Valid()
      ensures State() == Frame(Setup(), old(State()), dt, dist, ballSpeed, turn, launch)
    {
      ghost var start := State();
      AccelerateCar(dt);
      car.RotateY(turn);
      Collide(dist, ballSpeed);
      car.Update(dt);
      ball.Update(dt);
      ball.UpdateShadow();
      assert State() == Move(Setup(), start, dt, dist, ballSpeed, turn);
      CheckGoal(launch);
      FrameKeepsInvariant(Setup(), start, dt, dist, ballSpeed, turn, launch);
    }
  }
}
