/** The car (src/Car.ts): a box that drives along its own forward axis and
    refuses to leave the arena. Its rotation is only ever a turn about the
    vertical axis, so the whole orientation is kept as `heading`, the world
    direction of the car's local +z axis, which is the axis translateZ moves
    along. */
module CarPhysics {
  import opened Vectors

  /** The arena the car's centre must stay in: x in [-37.4, 37.4] and
      z in [-47.4, 47.4]. */
  const X_LIMIT := 37.4
  const Z_LIMIT := 47.4

  /** The local +z axis: the heading of an unrotated car. */
  const FORWARD := Vec3(0.0, 0.0, 1.0)

  datatype CarState = CarState(position: Vec3, heading: Vec3, velocity: Vec3)

  predicate InArena(p: Vec3) {
    -X_LIMIT <= p.x <= X_LIMIT && -Z_LIMIT <= p.z <= Z_LIMIT
  }

  /** Object3D.translateZ for a car whose local +z axis points along
      `heading`. */
  function TranslateZ(p: Vec3, heading: Vec3, distance: real): Vec3 {
    Add(p, Scale(heading, distance))
  }

  /** One Car.update of the position: move vz·dt along the heading, and
      move back by the same amount when that left the arena. */
  function Drive(p: Vec3, heading: Vec3, vz: real, dt: real): (r: Vec3)
    ensures InArena(TranslateZ(p, heading, vz * dt)) ==> r == TranslateZ(p, heading, vz * dt)
    ensures !InArena(TranslateZ(p, heading, vz * dt)) ==> r == p
    ensures InArena(p) ==> InArena(r)
    ensures heading.y == 0.0 ==> r.y == p.y
  {
    var moved := TranslateZ(p, heading, vz * dt);
    if !InArena(moved) then TranslateZ(moved, heading, -(vz * dt)) else moved
  }

  /** Object3D.rotateY by an angle with the given cosine and sine, applied
      to the heading: the rotation about the vertical axis. */
  function Turn(heading: Vec3, a: Angle): Vec3 {
    Vec3(heading.x * a.cos + heading.z * a.sin,
         heading.y,
         heading.z * a.cos - heading.x * a.sin)
  }

  /** A heading in the ground plane of length one. */
  predicate FlatUnit(h: Vec3) {
    h.y == 0.0 && h.x * h.x + h.z * h.z == 1.0
  }

  /** A turn keeps a flat unit heading flat and of length one. */
  lemma TurnKeepsFlatUnit(h: Vec3, a: Angle)
    requires FlatUnit(h) && OnUnitCircle(a)
    ensures FlatUnit(Turn(h, a))
  {
    var x, z, c, s := h.x, h.z, a.cos, a.sin;
    assert (x * c + z * s) * (x * c + z * s) + (z * c - x * s) * (z * c - x * s)
        == (x * x + z * z) * (c * c + s * s);
  }

  /** Turning back by the opposite angle undoes a turn. */
  lemma TurnUndo(h: Vec3, a: Angle)
    requires OnUnitCircle(a)
    ensures Turn(Turn(h, a), Angle(a.cos, -a.sin)) == h
  {
    var x, z, c, s := h.x, h.z, a.cos, a.sin;
    assert (x * c + z * s) * c - (z * c - x * s) * s == x * (c * c + s * s);
    assert (z * c - x * s) * c + (x * c + z * s) * s == z * (c * c + s * s);
  }

  /** The state Car.reset leaves: at the spawn point, unrotated, at rest. */
  function ResetState(initialPosition: Vec3): CarState {
    CarState(initialPosition, FORWARD, ZERO)
  }

  /** A reset car stands at its spawn point, facing +z along the ground,
      at rest. */
  lemma ResetIsAtRest(p: Vec3)
    ensures ResetState(p).position == p
    ensures ResetState(p).heading == FORWARD && FlatUnit(ResetState(p).heading)
    ensures ResetState(p).velocity == ZERO
    ensures ResetState(p).velocity.x == 0.0 && ResetState(p).velocity.y == 0.0
    ensures ResetState(p).velocity.z == 0.0
  {
  }

  /** One Car.update: only the position changes. */
  function CarStep(c: CarState, dt: real): (r: CarState)
    ensures r.heading == c.heading && r.velocity == c.velocity
    ensures InArena(c.position) ==> InArena(r.position)
    ensures c.heading.y == 0.0 ==> r.position.y == c.position.y
  {
    c.(position := Drive(c.position, c.heading, c.velocity.z, dt))
  }

  /** A car that leaves the arena in a frame ends that frame where it
      started. */
  lemma OutOfArenaStepsBack(c: CarState, dt: real)
    requires !InArena(TranslateZ(c.position, c.heading, c.velocity.z * dt))
    ensures CarStep(c, dt) == c
  {
  }

  class Car {
    var position: Vec3
    /** The world direction of the car's local +z axis (Object3D.rotation,
        which only ever turns about y). */
    var heading: Vec3
    var velocity: Vec3
    const initialPosition: Vec3
    const size: Vec3
    const collisionRadius: real

    function State(): CarState
      reads this
    {
      CarState(position, heading, velocity)
    }

    /** The box meshes are not modelled; the constructor ends with a reset. */
    constructor (position: Vec3, size: Vec3, collisionRadius: real)
      ensures initialPosition == position && this.size == size
      ensures this.collisionRadius == collisionRadius
      ensures State() == ResetState(position)
    {
      initialPosition := position;
      velocity := ZERO;
      this.size := size;
      this.collisionRadius := collisionRadius;
      this.position := ZERO;
      heading := FORWARD;
      new;
      Reset();
    }

    /** The new state does not depend on the old one, so a second reset
        changes nothing. */
    method Reset()
      modifies this
      ensures State() == ResetState(initialPosition)
    {
      position := initialPosition;
      heading := FORWARD;
      velocity := ZERO;
    }

    method Update(dt: real)
      modifies this
      ensures State() == CarStep(old(State()), dt)
    {
      position := TranslateZ(position, heading, velocity.z * dt);
      if position.x < -X_LIMIT || position.x > X_LIMIT
        || position.z < -Z_LIMIT || position.z > Z_LIMIT
      {
        position := TranslateZ(position, heading, -(velocity.z * dt));
      }
    }

    method RotateY(a: Angle)
      modifies this
      ensures State() == old(State()).(heading := Turn(old(heading), a))
    {
      heading := Turn(heading, a);
    }
  }
}
