/** The ball (src/Ball.ts): free flight under gravity inside the arena box,
    with a lossy reflection off each wall, and the ground shadow. */
module BallPhysics {
  import opened Vectors

  /** Arena walls as the ball's centre sees them: x in [-37.4, 37.4],
      y in [2.6, 32.4], z in [-47.4, 47.4]. */
  const X_WALL := 37.4
  const FLOOR := 2.6
  const CEILING := 32.4
  const Z_WALL := 47.4

  /** Share of the velocity kept by a reflection. */
  const RESTITUTION := 0.8
  /** Downward acceleration while the ball is not touching floor or ceiling. */
  const GRAVITY := 15.0
  /** Horizontal speed and upward speed the ball is thrown with on reset. */
  const LAUNCH_SPEED := 25.0
  const LAUNCH_LIFT := 15.0
  /** Height of the shadow above the ground. */
  const SHADOW_LIFT := 0.01

  datatype BallState = BallState(position: Vec3, velocity: Vec3)

  /** v - 2(v·n)n: the value Ball.reflectVector returns. */
  function Reflect(n: Vec3, v: Vec3): Vec3 {
    Sub(v, Scale(n, 2.0 * Dot(v, n)))
  }

  /** A wall's reflection followed by the loss of 20% of the velocity. */
  function Rebound(n: Vec3, v: Vec3): Vec3 {
    Scale(Reflect(n, v), RESTITUTION)
  }

  /** The velocity Ball.reset throws the ball with, for a random angle whose
      cosine and sine are given. */
  function LaunchVelocity(angle: Angle): (v: Vec3)
    requires OnUnitCircle(angle)
    ensures v.y == LAUNCH_LIFT
    ensures v.x * v.x + v.z * v.z == LAUNCH_SPEED * LAUNCH_SPEED
  {
    var v := Vec3(LAUNCH_SPEED * angle.cos, LAUNCH_LIFT, LAUNCH_SPEED * angle.sin);
    assert v.x * v.x + v.z * v.z
        == LAUNCH_SPEED * LAUNCH_SPEED * (angle.cos * angle.cos + angle.sin * angle.sin);
    v
  }

  /** Where the shadow sits relative to the ball: its world height, the
      ball's height plus this offset, is always SHADOW_LIFT. */
  function ShadowOffset(p: Vec3): (o: Vec3)
    ensures o.x == 0.0 && o.z == 0.0
    ensures p.y + o.y == SHADOW_LIFT
  {
    Vec3(0.0, -p.y + SHADOW_LIFT, 0.0)
  }

  predicate XHit(p: Vec3) { p.x < -X_WALL || p.x > X_WALL }
  predicate YHit(p: Vec3) { p.y < FLOOR || p.y > CEILING }
  predicate ZHit(p: Vec3) { p.z < -Z_WALL || p.z > Z_WALL }

  /** Position integration: each coordinate moves by its velocity times dt. */
  function Advance(s: BallState, dt: real): BallState {
    BallState(Add(s.position, Scale(s.velocity, dt)), s.velocity)
  }

  /** Moving one coordinate back by its velocity times dt: what a wall hit
      does to the position along that wall's axis. */
  function BackX(p: Vec3, v: Vec3, dt: real): Vec3 { p.(x := p.x - v.x * dt) }
  function BackY(p: Vec3, v: Vec3, dt: real): Vec3 { p.(y := p.y - v.y * dt) }
  function BackZ(p: Vec3, v: Vec3, dt: real): Vec3 { p.(z := p.z - v.z * dt) }

  /** Gravity over dt, applied to the vertical velocity. */
  function Fall(v: Vec3, dt: real): Vec3 { v.(y := v.y + -GRAVITY * dt) }

  /** The side walls: undo the x displacement with the current velocity and
      rebound off the inward normal. */
  function CheckX(s: BallState, dt: real): BallState {
    var p := s.position;
    var v := s.velocity;
    if p.x < -X_WALL then
      BallState(BackX(p, v, dt), Rebound(Vec3(1.0, 0.0, 0.0), v))
    else if p.x > X_WALL then
      BallState(BackX(p, v, dt), Rebound(Vec3(-1.0, 0.0, 0.0), v))
    else
      s
  }

  /** Floor and ceiling; gravity acts only when neither is hit. */
  function CheckY(s: BallState, dt: real): BallState {
    var p := s.position;
    var v := s.velocity;
    if p.y < FLOOR then
      BallState(BackY(p, v, dt), Rebound(Vec3(0.0, 1.0, 0.0), v))
    else if p.y > CEILING then
      BallState(BackY(p, v, dt), Rebound(Vec3(0.0, -1.0, 0.0), v))
    else
      BallState(p, Fall(v, dt))
  }

  /** The back walls behind the goals. */
  function CheckZ(s: BallState, dt: real): BallState {
    var p := s.position;
    var v := s.velocity;
    if p.z < -Z_WALL then
      BallState(BackZ(p, v, dt), Rebound(Vec3(0.0, 0.0, 1.0), v))
    else if p.z > Z_WALL then
      BallState(BackZ(p, v, dt), Rebound(Vec3(0.0, 0.0, -1.0), v))
    else
      s
  }

  /** One Ball.update: integrate, then the x, y and z checks in that order. */
  function Step(s: BallState, dt: real): BallState {
    CheckZ(CheckY(CheckX(Advance(s, dt), dt), dt), dt)
  }

  /** Reflection about an axis-aligned wall normal negates exactly the
      component along that axis. */
  lemma ReflectAxes(v: Vec3)
    ensures Reflect(Vec3(1.0, 0.0, 0.0), v) == Vec3(-v.x, v.y, v.z)
    ensures Reflect(Vec3(-1.0, 0.0, 0.0), v) == Vec3(-v.x, v.y, v.z)
    ensures Reflect(Vec3(0.0, 1.0, 0.0), v) == Vec3(v.x, -v.y, v.z)
    ensures Reflect(Vec3(0.0, -1.0, 0.0), v) == Vec3(v.x, -v.y, v.z)
    ensures Reflect(Vec3(0.0, 0.0, 1.0), v) == Vec3(v.x, v.y, -v.z)
    ensures Reflect(Vec3(0.0, 0.0, -1.0), v) == Vec3(v.x, v.y, -v.z)
  {
  }

  /** Dot product of v - k·n with n. */
  lemma DotAfterRemoval(n: Vec3, v: Vec3, k: real)
    ensures Dot(Sub(v, Scale(n, k)), n) == Dot(v, n) - k * LengthSq(n)
  {
  }

  /** Squared length of v - k·n. */
  lemma LengthSqAfterRemoval(n: Vec3, v: Vec3, k: real)
    ensures LengthSq(Sub(v, Scale(n, k)))
         == LengthSq(v) - 2.0 * k * Dot(v, n) + k * k * LengthSq(n)
  {
  }

  /** About a unit normal, reflection flips the normal component and keeps
      the tangential part. */
  lemma ReflectFlipsNormal(n: Vec3, v: Vec3)
    requires IsUnit(n)
    ensures Dot(Reflect(n, v), n) == -Dot(v, n)
    ensures Sub(Reflect(n, v), Scale(n, Dot(Reflect(n, v), n)))
         == Sub(v, Scale(n, Dot(v, n)))
  {
    var d := Dot(v, n);
    DotAfterRemoval(n, v, 2.0 * d);
    assert Dot(Reflect(n, v), n) == -d;
  }

  /** About a unit normal, reflection preserves length. */
  lemma ReflectPreservesLength(n: Vec3, v: Vec3)
    requires IsUnit(n)
    ensures LengthSq(Reflect(n, v)) == LengthSq(v)
  {
    var d := Dot(v, n);
    LengthSqAfterRemoval(n, v, 2.0 * d);
    assert 2.0 * (2.0 * d) * d == (2.0 * d) * (2.0 * d) * 1.0;
  }

  /** About a unit normal, reflecting twice gives back the velocity. */
  lemma ReflectInvolution(n: Vec3, v: Vec3)
    requires IsUnit(n)
    ensures Reflect(n, Reflect(n, v)) == v
  {
    ReflectFlipsNormal(n, v);
  }

  /** Every rebound multiplies the squared speed by 0.64. */
  lemma ReboundSpeed(n: Vec3, v: Vec3)
    requires IsUnit(n)
    ensures LengthSq(Rebound(n, v)) == RESTITUTION * RESTITUTION * LengthSq(v)
  {
    var r := Reflect(n, v);
    ReflectPreservesLength(n, v);
    assert LengthSq(Scale(r, RESTITUTION)) == RESTITUTION * RESTITUTION * LengthSq(r);
  }

  /** A side-wall hit puts x back where it was before the frame and leaves
      0.8·(-vx, vy, vz), at 0.64 of the squared speed. */
  lemma SideWallBounce(s: BallState, dt: real)
    requires XHit(Advance(s, dt).position)
    ensures CheckX(Advance(s, dt), dt).position == Advance(s, dt).position.(x := s.position.x)
    ensures CheckX(Advance(s, dt), dt).velocity
         == Scale(Vec3(-s.velocity.x, s.velocity.y, s.velocity.z), RESTITUTION)
    ensures LengthSq(CheckX(Advance(s, dt), dt).velocity)
         == RESTITUTION * RESTITUTION * LengthSq(s.velocity)
    ensures Step(s, dt).position.x == s.position.x
  {
    ReflectAxes(s.velocity);
    var n := if Advance(s, dt).position.x < -X_WALL then Vec3(1.0, 0.0, 0.0) else Vec3(-1.0, 0.0, 0.0);
    ReboundSpeed(n, s.velocity);
  }

  /** A ball that starts the frame between the side walls ends it there. */
  lemma StaysBetweenSideWalls(s: BallState, dt: real)
    requires -X_WALL <= s.position.x <= X_WALL
    ensures -X_WALL <= Step(s, dt).position.x <= X_WALL
  {
    if XHit(Advance(s, dt).position) {
      SideWallBounce(s, dt);
    }
  }

  /** Gravity and the floor/ceiling rebound exclude each other: with a hit
      the vertical velocity is reflected and no gravity is added; without
      one only vy changes, by exactly -15·dt. */
  lemma GravityOnlyInFlight(b: BallState, dt: real)
    ensures YHit(b.position) ==>
      CheckY(b, dt).velocity == Scale(Vec3(b.velocity.x, -b.velocity.y, b.velocity.z), RESTITUTION)
    ensures !YHit(b.position) ==>
      CheckY(b, dt) == BallState(b.position, b.velocity.(y := b.velocity.y - GRAVITY * dt))
  {
    ReflectAxes(b.velocity);
  }

  /** Each check moves the ball only along its own axis. */
  lemma ChecksStayOnTheirAxis(s: BallState, dt: real)
    ensures CheckX(s, dt).position.y == s.position.y && CheckX(s, dt).position.z == s.position.z
    ensures CheckY(s, dt).position.x == s.position.x && CheckY(s, dt).position.z == s.position.z
    ensures CheckZ(s, dt).position.x == s.position.x && CheckZ(s, dt).position.y == s.position.y
  {
  }

  /** Integration moves each coordinate by dt times its velocity, and the
      side-wall check leaves y and z alone. */
  lemma AdvanceThenSideWalls(s: BallState, dt: real)
    ensures CheckX(Advance(s, dt), dt).position.y == s.position.y + dt * s.velocity.y
    ensures CheckX(Advance(s, dt), dt).position.z == s.position.z + dt * s.velocity.z
  {
    ChecksStayOnTheirAxis(Advance(s, dt), dt);
  }

  /** After the side walls, y changes only by the floor/ceiling undo. */
  lemma HeightAfterLastChecks(b: BallState, dt: real)
    requires YHit(b.position)
    ensures CheckZ(CheckY(b, dt), dt).position.y == b.position.y - b.velocity.y * dt
  {
    ChecksStayOnTheirAxis(CheckY(b, dt), dt);
  }

  lemma UndoArithmetic(y0: real, v0: real, v1: real, dt: real)
    ensures y0 + dt * v0 - v1 * dt == y0 + (v0 - v1) * dt
  {
  }

  /** The floor/ceiling undo subtracts the velocity as it is after the side
      walls, not the one the ball was integrated with. */
  lemma FloorCeilingUndo(s: BallState, dt: real)
    requires YHit(CheckX(Advance(s, dt), dt).position)
    ensures Step(s, dt).position.y
         == s.position.y + (s.velocity.y - CheckX(Advance(s, dt), dt).velocity.y) * dt
  {
    var b := CheckX(Advance(s, dt), dt);
    AdvanceThenSideWalls(s, dt);
    HeightAfterLastChecks(b, dt);
    UndoArithmetic(s.position.y, s.velocity.y, b.velocity.y, dt);
  }

  /** Without a side-wall hit the floor/ceiling undo restores y exactly. */
  lemma FloorCeilingRestores(s: BallState, dt: real)
    requires !XHit(Advance(s, dt).position)
    requires YHit(Advance(s, dt).position)
    ensures Step(s, dt).position.y == s.position.y
  {
    FloorCeilingUndo(s, dt);
  }

  /** After a side-wall hit the floor/ceiling undo takes back only 0.8 of
      the y move, leaving 0.2·vy·dt of it. */
  lemma FloorCeilingAfterSideWall(s: BallState, dt: real)
    requires XHit(Advance(s, dt).position)
    requires YHit(Advance(s, dt).position)
    ensures Step(s, dt).position.y == s.position.y + (1.0 - RESTITUTION) * s.velocity.y * dt
  {
    SideWallBounce(s, dt);
    ChecksStayOnTheirAxis(Advance(s, dt), dt);
    FloorCeilingUndo(s, dt);
    var vy := s.velocity.y;
    assert CheckX(Advance(s, dt), dt).velocity.y == RESTITUTION * vy;
    assert (vy - RESTITUTION * vy) * dt == (1.0 - RESTITUTION) * vy * dt;
  }

  /** After the first two checks, z changes only by the back-wall undo. */
  lemma DepthAfterLastCheck(c: BallState, dt: real)
    requires ZHit(c.position)
    ensures CheckZ(c, dt).position.z == c.position.z - c.velocity.z * dt
  {
  }

  /** Neither the side walls nor the floor and ceiling change z. */
  lemma DepthBeforeLastCheck(s: BallState, dt: real)
    ensures CheckY(CheckX(Advance(s, dt), dt), dt).position.z == s.position.z + dt * s.velocity.z
  {
    AdvanceThenSideWalls(s, dt);
    ChecksStayOnTheirAxis(CheckX(Advance(s, dt), dt), dt);
  }

  /** The back-wall undo subtracts the velocity as it is after the first two
      checks. */
  lemma BackWallUndo(s: BallState, dt: real)
    requires ZHit(CheckY(CheckX(Advance(s, dt), dt), dt).position)
    ensures Step(s, dt).position.z
         == s.position.z + (s.velocity.z - CheckY(CheckX(Advance(s, dt), dt), dt).velocity.z) * dt
  {
    var c := CheckY(CheckX(Advance(s, dt), dt), dt);
    DepthBeforeLastCheck(s, dt);
    DepthAfterLastCheck(c, dt);
    UndoArithmetic(s.position.z, s.velocity.z, c.velocity.z, dt);
  }

  /** Without a side-wall or floor/ceiling hit the back-wall undo restores
      z exactly. */
  lemma BackWallRestores(s: BallState, dt: real)
    requires !XHit(Advance(s, dt).position)
    requires !YHit(Advance(s, dt).position)
    requires ZHit(Advance(s, dt).position)
    ensures Step(s, dt).position.z == s.position.z
  {
    ChecksStayOnTheirAxis(Advance(s, dt), dt);
    BackWallUndo(s, dt);
  }

  /** With no wall hit the ball just moves by velocity·dt and only vy
      changes, by -15·dt. */
  lemma FreeFlight(s: BallState, dt: real)
    requires !XHit(Advance(s, dt).position)
    requires !YHit(Advance(s, dt).position)
    requires !ZHit(Advance(s, dt).position)
    ensures Step(s, dt).position == Add(s.position, Scale(s.velocity, dt))
    ensures Step(s, dt).velocity == s.velocity.(y := s.velocity.y - GRAVITY * dt)
  {
  }

  /** After a side-wall bounce the floor undo falls short: a ball starting
      above the floor ends the frame below it. */
  lemma FloorUndoFallsShort(s: BallState, dt: real)
    requires s == BallState(Vec3(37.0, 2.7, 0.0), Vec3(10.0, -10.0, 0.0)) && dt == 0.1
    ensures s.position.y >= FLOOR && Step(s, dt).position.y < FLOOR
  {
    FloorCeilingAfterSideWall(s, dt);
  }

  class Ball {
    var position: Vec3
    var velocity: Vec3
    /** Position of the shadow mesh relative to the ball. */
    var shadowPosition: Vec3
    const radius: real
    const initialPosition: Vec3

    function State(): BallState
      reads this
    {
      BallState(position, velocity)
    }

    /** The mesh and material set-up is not modelled; the constructor ends
        with a reset. */
    constructor (position: Vec3, radius: real, launch: Angle)
      requires OnUnitCircle(launch)
      ensures this.radius == radius && initialPosition == position
      ensures State() == BallState(position, LaunchVelocity(launch))
      ensures shadowPosition == ZERO
    {
      this.radius := radius;
      velocity := ZERO;
      initialPosition := position;
      this.position := ZERO;
      shadowPosition := ZERO;
      new;
      Reset(launch);
    }

    method Reset(launch: Angle)
      requires OnUnitCircle(launch)
      modifies this
      ensures State() == BallState(initialPosition, LaunchVelocity(launch))
      ensures shadowPosition == old(shadowPosition)
    {
      position := initialPosition;
      velocity := Vec3(LAUNCH_SPEED * launch.cos, LAUNCH_LIFT, LAUNCH_SPEED * launch.sin);
    }

    method Update(dt: real)
      modifies this
      ensures State() == Step(old(State()), dt)
      ensures shadowPosition == old(shadowPosition)
    {
      ghost var start := BallState(position, velocity);
      // position.x, .y and .z each advance by their velocity times dt
      position := Add(position, Scale(velocity, dt));

      if position.x < -X_WALL {
        position := BackX(position, velocity, dt);
        var reflected, _ := ReflectVector(Vec3(1.0, 0.0, 0.0), velocity);
        velocity := Scale(reflected, RESTITUTION);
      } else if position.x > X_WALL {
        position := BackX(position, velocity, dt);
        var reflected, _ := ReflectVector(Vec3(-1.0, 0.0, 0.0), velocity);
        velocity := Scale(reflected, RESTITUTION);
      }
      assert BallState(position, velocity) == CheckX(Advance(start, dt), dt);
      ghost var afterX := BallState(position, velocity);

      if position.y < FLOOR {
        position := BackY(position, velocity, dt);
        var reflected, _ := ReflectVector(Vec3(0.0, 1.0, 0.0), velocity);
        velocity := Scale(reflected, RESTITUTION);
      } else if position.y > CEILING {
        position := BackY(position, velocity, dt);
        var reflected, _ := ReflectVector(Vec3(0.0, -1.0, 0.0), velocity);
        velocity := Scale(reflected, RESTITUTION);
      } else {
        velocity := Fall(velocity, dt);
      }
      assert BallState(position, velocity) == CheckY(afterX, dt);
      ghost var afterY := BallState(position, velocity);

      if position.z < -Z_WALL {
        position := BackZ(position, velocity, dt);
        var reflected, _ := ReflectVector(Vec3(0.0, 0.0, 1.0), velocity);
        velocity := Scale(reflected, RESTITUTION);
      } else if position.z > Z_WALL {
        position := BackZ(position, velocity, dt);
        var reflected, _ := ReflectVector(Vec3(0.0, 0.0, -1.0), velocity);
        velocity := Scale(reflected, RESTITUTION);
      }
      assert BallState(position, velocity) == CheckZ(afterY, dt);
    }

    method UpdateShadow()
      modifies this
      ensures shadowPosition == ShadowOffset(position)
      ensures State() == old(State())
    {
      shadowPosition := Vec3(0.0, -position.y + SHADOW_LIFT, 0.0);
    }

    /** reflectVector works in place: n is overwritten with 2(v·n)n and v
        with the result, which is also returned. Both new values are
        returned here; together they add up to the old v. */
    method ReflectVector(n: Vec3, v: Vec3) returns (reflected: Vec3, scaledNormal: Vec3)
      ensures reflected == Reflect(n, v)
      ensures scaledNormal == Scale(n, 2.0 * Dot(v, n))
      ensures Add(reflected, scaledNormal) == v
    {
      var vDotN := Dot(v, n);
      scaledNormal := Scale(n, 2.0 * vDotN);
      reflected := Sub(v, scaledNormal);
    }
  }
}
