/** The small part of the physics engine's object model that the field
    uses: rigid bodies with a position, an angle, a static flag and an
    accumulated force; constraints between two bodies; composites that
    group bodies and constraints; and collision filters. The engine's
    solver and integrator are not modelled: nothing here moves a body
    except an explicit SetPosition. */
module Physics {
  import opened Geometry

  datatype Shape = Disc(radius: real) | Box(width: real, height: real)

  /** A collision filter: the category bits a body belongs to and the
      mask of categories it may collide with. */
  datatype Filter = Filter(category: bv32, mask: bv32)

  const WallCategory: bv32 := 0x0001
  const BalloonCategory: bv32 := 0x0002
  /** Declared alongside the other two categories but assigned to no body. */
  const TailCategory: bv32 := 0x0004

  /** The engine's defaults for a body created without a filter. */
  const DefaultCategory: bv32 := 0x0001
  const DefaultMask: bv32 := 0xFFFF_FFFF
  /** The engine's defaults for restitution and air friction. */
  const DefaultRestitution: real := 0.0
  const DefaultFrictionAir: real := 0.01

  const WallFilter: Filter := Filter(WallCategory, DefaultMask)
  /** Balloons collide with walls and with each other, never with tails. */
  const BalloonFilter: Filter := Filter(BalloonCategory, WallCategory | BalloonCategory)
  /** Tail segments keep the default category but collide with nothing. */
  const SegmentFilter: Filter := Filter(DefaultCategory, 0)

  /** Two bodies in the default group collide when each one's mask
      admits the other's category. */
  function CanCollide(a: Filter, b: Filter): (r: bool)
    ensures a.mask == 0 || b.mask == 0 ==> !r
    ensures r ==> a.mask & b.category != 0
  {
    a.mask & b.category != 0 && b.mask & a.category != 0
  }

  /** The collision matrix of the field: balloons hit walls and balloons
      but not tails; tail segments hit nothing at all. */
  lemma CollisionMatrix()
    ensures CanCollide(BalloonFilter, WallFilter)
    ensures CanCollide(BalloonFilter, BalloonFilter)
    ensures !CanCollide(BalloonFilter, SegmentFilter)
    ensures forall f: Filter :: !CanCollide(SegmentFilter, f)
  {
  }

  /** A mutable two-dimensional vector owned by a body. */
  class Vector {
    var x: real
    var y: real

    constructor (x: real, y: real)
      ensures this.x == x && this.y == y
    {
      this.x, this.y := x, y;
    }
  }

  class Body {
    var x: real
    var y: real
    var angle: real
    var isStatic: bool
    /** Force accumulated for the next engine step. */
    const force: Vector
    const shape: Shape
    const restitution: real
    const frictionAir: real
    const filter: Filter

    /** A dynamic circular body centred at (x, y). */
    constructor Circle(x: real, y: real, radius: real, restitution: real, frictionAir: real, filter: Filter)
      ensures this.x == x && this.y == y && angle == 0.0 && !isStatic
      ensures fresh(force) && force.x == 0.0 && force.y == 0.0
      ensures shape == Disc(radius) && this.restitution == restitution
      ensures this.frictionAir == frictionAir && this.filter == filter
    {
      this.x, this.y, angle, isStatic := x, y, 0.0, false;
      force := new Vector(0.0, 0.0);
      shape := Disc(radius);
      this.restitution, this.frictionAir, this.filter := restitution, frictionAir, filter;
    }

    /** A static rectangular body centred at (x, y), with the engine's
        default restitution and air friction. */
    constructor StaticRectangle(x: real, y: real, width: real, height: real, filter: Filter)
      ensures this.x == x && this.y == y && angle == 0.0 && isStatic
      ensures fresh(force) && force.x == 0.0 && force.y == 0.0
      ensures shape == Box(width, height) && this.filter == filter
      ensures restitution == DefaultRestitution && frictionAir == DefaultFrictionAir
    {
      this.x, this.y, angle, isStatic := x, y, 0.0, true;
      force := new Vector(0.0, 0.0);
      shape := Box(width, height);
      restitution, frictionAir, this.filter := DefaultRestitution, DefaultFrictionAir, filter;
    }

    /** Moves the body; its shape and everything else stay as they are. */
    method SetPosition(p: Vec)
      modifies this`x, this`y
      ensures x == p.x && y == p.y
      ensures angle == old(angle) && isStatic == old(isStatic)
    {
      x, y := p.x, p.y;
    }

    method SetStatic(s: bool)
      modifies this`isStatic
      ensures isStatic == s
      ensures x == old(x) && y == old(y) && angle == old(angle)
    {
      isStatic := s;
    }

    method SetAngle(a: real)
      modifies this`angle
      ensures angle == a
      ensures x == old(x) && y == old(y) && isStatic == old(isStatic)
    {
      angle := a;
    }

    /** Adds `f` to the force the next engine step will apply at the centre. */
    method ApplyForce(f: Vec)
      modifies force
      ensures force.x == old(force.x) + f.x && force.y == old(force.y) + f.y
    {
      force.x, force.y := force.x + f.x, force.y + f.y;
    }
  }

  /** A spring between `bodyA` (at offset `pointA` from its centre) and
      the centre of `bodyB`. */
  datatype Constraint = Constraint(bodyA: Body, bodyB: Body, pointA: Vec, stiffness: real, length: real)

  /** A labelled group of bodies and constraints, added to and removed
      from the world as one unit. */
  class Composite {
    const name: string
    var bodies: seq<Body>
    var constraints: seq<Constraint>

    constructor (name: string)
      ensures this.name == name && bodies == [] && constraints == []
    {
      this.name := name;
      bodies, constraints := [], [];
    }

    method AddBody(b: Body)
      modifies this
      ensures bodies == old(bodies) + [b] && constraints == old(constraints)
    {
      bodies := bodies + [b];
    }

    method AddConstraint(c: Constraint)
      modifies this
      ensures constraints == old(constraints) + [c] && bodies == old(bodies)
    {
      constraints := constraints + [c];
    }
  }
}
