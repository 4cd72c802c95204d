/** The balloon field: the registry of live balloons, the single focus
    slot, the set of objects in the physics world and the four walls,
    with the handlers that change them: adding a balloon, focusing and
    unfocusing, completing, resizing and the per-step drift gating. */
module Sky {
  import opened Geometry
  import opened Physics
  import Text
  import Registry

  /** Number of segments in a balloon's tail. */
  const TailSegments: nat := 15
  /** Vertical distance between consecutive segments when the tail is built. */
  const SegmentSpacing: real := 8.0
  const SegmentRadius: real := 0.5
  const SegmentRestitution: real := 0.4
  const SegmentFrictionAir: real := 0.12
  /** Rest length and stiffness of each link of the tail. */
  const LinkLength: real := 8.0
  const LinkStiffness: real := 0.7

  const BalloonRestitution: real := 0.6
  const BalloonFrictionAir: real := 0.08
  /** Balloon radii are drawn uniformly from [MinSize, MinSize + SizeRange). */
  const MinSize: real := 30.0
  const SizeRange: real := 20.0
  const Palette: seq<string> := ["#FFB7CE", "#BFFCC6", "#C5B4E3", "#FAD5A5"]

  /** Drift phase advance per engine step of an unfocused balloon. */
  const DriftStep: real := 0.005

  /** Link `i` of a tail: it joins `previous` (the balloon itself for the
      first link, at the bottom of its circle) to `segment`, with the
      tail's fixed length and stiffness. */
  function Link(i: nat, previous: Body, segment: Body, size: real): Constraint
  {
    Constraint(previous, segment, if i == 0 then Vec(0.0, size) else Vec(0.0, 0.0), LinkStiffness, LinkLength)
  }

  /** Segment `i` of a tail built below a balloon of radius `size` centred
      at (x, y): straight down from the bottom of the balloon, one spacing
      apart, colliding with nothing. */
  ghost predicate SegmentAt(s: Body, x: real, y: real, size: real, i: nat)
    reads s
  {
    s.x == x && s.y == y + size + (i as real) * SegmentSpacing &&
    !s.isStatic && s.shape == Disc(SegmentRadius) && s.filter == SegmentFilter &&
    s.restitution == SegmentRestitution && s.frictionAir == SegmentFrictionAir
  }

  /** The shape of a freshly built tail hanging from `anchor`. */
  ghost predicate TailShape(tail: Composite, anchor: Body, x: real, y: real, size: real)
    reads tail, tail.bodies
  {
    tail.name == "Tail" &&
    |tail.bodies| == TailSegments && |tail.constraints| == TailSegments &&
    (forall i: nat :: i < TailSegments ==> SegmentAt(tail.bodies[i], x, y, size, i)) &&
    tail.constraints[0] == Link(0, anchor, tail.bodies[0], size) &&
    (forall i :: 0 < i < TailSegments ==> tail.constraints[i] == Link(i, tail.bodies[i - 1], tail.bodies[i], size))
  }

  /** Builds the tail of a balloon of radius `size` whose body `anchor` is
      centred at (x, y), one segment and one link per iteration. */
  method BuildTail(anchor: Body, x: real, y: real, size: real) returns (tail: Composite)
    ensures fresh(tail)
    ensures forall i :: 0 <= i < |tail.bodies| ==> fresh(tail.bodies[i])
    ensures TailShape(tail, anchor, x, y, size)
  {
    tail := new Composite("Tail");
    var previous := anchor;
    var i: nat := 0;
    while i < TailSegments
      invariant i <= TailSegments
      invariant fresh(tail) && tail.name == "Tail"
      invariant |tail.bodies| == i && |tail.constraints| == i
      invariant forall k :: 0 <= k < i ==> fresh(tail.bodies[k])
      invariant forall k: nat :: k < i ==> SegmentAt(tail.bodies[k], x, y, size, k)
      invariant 0 < i ==> tail.constraints[0] == Link(0, anchor, tail.bodies[0], size)
      invariant forall k :: 0 < k < i ==> tail.constraints[k] == Link(k, tail.bodies[k - 1], tail.bodies[k], size)
      invariant previous == if i == 0 then anchor else tail.bodies[i - 1]
    {
      var segment := new Body.Circle(x, y + size + (i as real) * SegmentSpacing, SegmentRadius,
                                     SegmentRestitution, SegmentFrictionAir, SegmentFilter);
      tail.AddBody(segment);
      tail.AddConstraint(Link(i, previous, segment, size));
      previous := segment;
      i := i + 1;
    }
  }

  /** The reply of the edit prompt: cancelled, or the text entered. */
  datatype Reply = Cancelled | Entered(text: string)

  class Balloon {
    const body: Body
    const tail: Composite
    var text: string
    /** The height the balloon drifts around; never written after creation. */
    const targetY: real
    const size: real
    var driftPhase: real
    const color: string
    /** Top-left corner of the inspection panel, set when the balloon is focused. */
    var panelLeft: real
    var panelTop: real

    constructor (body: Body, tail: Composite, text: string, targetY: real,
                 size: real, driftPhase: real, color: string)
      ensures this.body == body && this.tail == tail && this.text == text
      ensures this.targetY == targetY && this.size == size
      ensures this.driftPhase == driftPhase && this.color == color
      ensures panelLeft == 0.0 && panelTop == 0.0
    {
      this.body, this.tail, this.text := body, tail, text;
      this.targetY, this.size := targetY, size;
      this.driftPhase, this.color := driftPhase, color;
      panelLeft, panelTop := 0.0, 0.0;
    }

    /** The edit button: a non-empty reply replaces the text. */
    method Edit(reply: Reply)
      modifies this`text
      ensures reply.Entered? && reply.text != [] ==> text == reply.text
      ensures !(reply.Entered? && reply.text != []) ==> text == old(text)
    {
      if reply.Entered? && reply.text != [] {
        text := reply.text;
      }
    }

    /** One engine step of drift for an unfocused balloon: the phase
        advances by DriftStep and `f` is added to its body's force. */
    method Drift(f: Vec)
      modifies this`driftPhase, body.force
      ensures driftPhase == old(driftPhase) + DriftStep
      ensures body.force.x == old(body.force.x) + f.x && body.force.y == old(body.force.y) + f.y
    {
      driftPhase := driftPhase + DriftStep;
      body.ApplyForce(f);
    }
  }

  /** What a newly created balloon looks like: its radius drawn from
      [MinSize, MinSize + SizeRange), a palette colour, its target height
      from the clamped band, its body a dynamic circle at the bottom of the
      field and its tail hanging straight down from it. */
  ghost predicate Spawned(b: Balloon, text: string, sizeDraw: real, xDraw: real, targetDraw: real,
                          phase: real, width: real, height: real, controlOffset: real)
    reads b, b.body, b.tail, b.tail.bodies
  {
    b.text == text && b.driftPhase == phase && b.color in Palette &&
    b.size == sizeDraw * SizeRange + MinSize && MinSize <= b.size < MinSize + SizeRange &&
    b.targetY == TargetY(controlOffset, height, b.size, targetDraw) &&
    b.body.x == xDraw * (width - b.size * 2.0) + b.size && b.body.y == height &&
    !b.body.isStatic && b.body.angle == 0.0 && b.body.shape == Disc(b.size) &&
    b.body.filter == BalloonFilter &&
    b.body.restitution == BalloonRestitution && b.body.frictionAir == BalloonFrictionAir &&
    TailShape(b.tail, b.body, b.body.x, b.body.y, b.size)
  }

  /** Builds a balloon, its body and its tail, from the random draws. */
  method NewBalloon(text: string, sizeDraw: real, xDraw: real, colorDraw: real, targetDraw: real,
                    phase: real, width: real, height: real, controlOffset: real) returns (b: Balloon)
    requires 0.0 <= sizeDraw < 1.0 && 0.0 <= colorDraw < 1.0
    ensures fresh(b) && fresh(b.body) && fresh(b.body.force) && fresh(b.tail)
    ensures b.color == Palette[(colorDraw * 4.0).Floor]
    ensures Spawned(b, text, sizeDraw, xDraw, targetDraw, phase, width, height, controlOffset)
  {
    var size := sizeDraw * SizeRange + MinSize;
    var x := xDraw * (width - size * 2.0) + size;
    var y := height;
    var color := Palette[(colorDraw * 4.0).Floor];
    var body := new Body.Circle(x, y, size, BalloonRestitution, BalloonFrictionAir, BalloonFilter);
    var tail := BuildTail(body, x, y, size);
    var targetY := TargetY(controlOffset, height, size, targetDraw);
    b := new Balloon(body, tail, text, targetY, size, phase, color);
  }

  ghost function BodiesOf(cs: set<Balloon>): set<Body>
  {
    set c | c in cs :: c.body
  }

  ghost function TailsOf(cs: set<Balloon>): set<Composite>
  {
    set c | c in cs :: c.tail
  }

  /** The four walls of a field of the given size: fresh, distinct and
      static bodies with the wall filter, centred at WallCenters and with
      the extents of WallExtents, in the order bottom, top, left, right. */
  method BuildWalls(width: real, height: real, controlOffset: real) returns (walls: seq<Body>)
    ensures |walls| == 4
    ensures forall i, j :: 0 <= i < j < 4 ==> walls[i] != walls[j]
    ensures forall k :: 0 <= k < 4 ==>
      fresh(walls[k]) && walls[k].isStatic && walls[k].filter == WallFilter &&
      walls[k].shape == Box(WallExtents(width, height)[k].x, WallExtents(width, height)[k].y) &&
      walls[k].x == WallCenters(width, height, controlOffset)[k].x &&
      walls[k].y == WallCenters(width, height, controlOffset)[k].y
  {
    var c := WallCenters(width, height, controlOffset);
    var e := WallExtents(width, height);
    var bottom := new Body.StaticRectangle(c[0].x, c[0].y, e[0].x, e[0].y, WallFilter);
    var top := new Body.StaticRectangle(c[1].x, c[1].y, e[1].x, e[1].y, WallFilter);
    var left := new Body.StaticRectangle(c[2].x, c[2].y, e[2].x, e[2].y, WallFilter);
    var right := new Body.StaticRectangle(c[3].x, c[3].y, e[3].x, e[3].y, WallFilter);
    walls := [bottom, top, left, right];
  }

  class Field {
    /** Size of the field and the y of the bottom of the control strip. */
    var width: real
    var height: real
    var controlOffset: real
    /** Bottom, top, left and right wall, created once. */
    const walls: seq<Body>
    var balloons: seq<Balloon>
    var focused: Balloon?
    /** Everything added to the physics world: the walls, and each live
        balloon's body and tail. */
    var world: set<object>
    /** Every balloon this field has created, live or completed. */
    ghost var created: set<Balloon>

    ghost predicate Valid()
      reads this`balloons, this`focused, this`world, this`created, walls`isStatic
      reads BodiesOf(created)`isStatic, BodiesOf(created)`angle
      reads TailsOf(created)`bodies, TailsOf(created)`constraints
    {
      // the walls
      |walls| == 4 &&
      (forall i, j :: 0 <= i < j < 4 ==> walls[i] != walls[j]) &&
      (forall k :: 0 <= k < 4 ==> walls[k] in world && walls[k].isStatic && walls[k].filter == WallFilter) &&
      (forall k :: 0 <= k < 4 ==>
         walls[k].shape.Box? && HasWallThickness(k, Vec(walls[k].shape.width, walls[k].shape.height))) &&
      // every balloon owns its body and tail
      (forall c :: c in created ==> c.body !in walls) &&
      (forall c, d :: c in created && d in created && c != d ==>
         c.body != d.body && c.tail != d.tail && c.body.force != d.body.force) &&
      (forall c :: c in created ==> |c.tail.bodies| == TailSegments && |c.tail.constraints| == TailSegments) &&
      // the registry
      (forall i :: 0 <= i < |balloons| ==> balloons[i] in created) &&
      Registry.Distinct(balloons) &&
      (forall c :: c in created ==> (c.body in world <==> c in balloons) && (c.tail in world <==> c in balloons)) &&
      // focus
      (focused != null ==> focused in created && focused.body.isStatic && focused.body.angle == 0.0) &&
      (forall c :: c in balloons && c != focused ==> !c.body.isStatic)
    }

    /** The walls sit at the positions the current field geometry gives. */
    ghost predicate WallsInPlace()
      reads this, walls
      requires |walls| == 4
    {
      var centers := WallCenters(width, height, controlOffset);
      forall k :: 0 <= k < 4 ==> walls[k].x == centers[k].x && walls[k].y == centers[k].y
    }

    /** Page load: an empty field whose walls are built for its size. */
    constructor (width: real, height: real, offsetTop: real, offsetHeight: real)
      ensures Valid()
      ensures this.width == width && this.height == height
      ensures controlOffset == ControlOffset(offsetTop, offsetHeight)
      ensures WallsInPlace()
      ensures forall k :: 0 <= k < 4 ==>
        fresh(walls[k]) && walls[k].shape == Box(WallExtents(width, height)[k].x, WallExtents(width, height)[k].y)
      ensures world == {walls[0], walls[1], walls[2], walls[3]}
      ensures balloons == [] && focused == null
    {
      var offset := ControlOffset(offsetTop, offsetHeight);
      var w := BuildWalls(width, height, offset);
      this.width, this.height, controlOffset := width, height, offset;
      walls := w;
      world := {w[0], w[1], w[2], w[3]};
      balloons, focused := [], null;
      created := {};
    }

    /** Window resize: the same four walls move to the new geometry; their
        lengths are not changed and nothing is added to the world. */
    method Resize(newWidth: real, newHeight: real, offsetTop: real, offsetHeight: real)
      requires Valid()
      modifies this`width, this`height, this`controlOffset
      modifies set k | 0 <= k < 4 :: walls[k]`x
      modifies set k | 0 <= k < 4 :: walls[k]`y
      ensures Valid()
      ensures width == newWidth && height == newHeight
      ensures controlOffset == ControlOffset(offsetTop, offsetHeight)
      ensures WallsInPlace()
      ensures world == old(world) && balloons == old(balloons) && focused == old(focused)
    {
      width, height := newWidth, newHeight;
      controlOffset := ControlOffset(offsetTop, offsetHeight);
      MoveWalls(WallCenters(width, height, controlOffset));
    }

    /** Moves the four walls, in order, to the four centres `c`. */
    method MoveWalls(c: seq<Vec>)
      requires Valid() && |c| == 4
      modifies set k | 0 <= k < 4 :: walls[k]`x
      modifies set k | 0 <= k < 4 :: walls[k]`y
      ensures Valid()
      ensures forall k :: 0 <= k < 4 ==> walls[k].x == c[k].x && walls[k].y == c[k].y
    {
      walls[0].SetPosition(c[0]);
      walls[1].SetPosition(c[1]);
      walls[2].SetPosition(c[2]);
      walls[3].SetPosition(c[3]);
    }

    /** Creates a balloon for `text` from the random draws of its radius,
        spawn position and colour (each in [0, 1)), of its target height
        and from its initial drift phase, and adds it to the registry and
        its body and tail to the world. */
    method CreateBalloon(text: string, sizeDraw: real, xDraw: real, colorDraw: real,
                         targetDraw: real, phase: real) returns (b: Balloon)
      requires Valid()
      requires 0.0 <= sizeDraw < 1.0 && 0.0 <= colorDraw < 1.0
      modifies this`balloons, this`world, this`created
      ensures Valid()
      ensures fresh(b) && fresh(b.body) && fresh(b.tail)
      ensures created == old(created) + {b}
      ensures balloons == old(balloons) + [b]
      ensures world == old(world) + {b.body, b.tail}
      ensures b.color == Palette[(colorDraw * 4.0).Floor]
      ensures Spawned(b, text, sizeDraw, xDraw, targetDraw, phase, width, height, controlOffset)
    {
      b := NewBalloon(text, sizeDraw, xDraw, colorDraw, targetDraw, phase, width, height, controlOffset);
      Register(b);
    }

    /** Registers a new balloon: it is appended to the registry and its body
        and tail join the world. The balloon must own a body, a body force
        and a tail that no balloon of this field owns, and its tail must
        have its full length. */
    method Register(b: Balloon)
      requires Valid()
      requires b !in created && b.body !in walls && b.body !in world && b.tail !in world
      requires forall c :: c in created ==> c.body != b.body && c.tail != b.tail && c.body.force != b.body.force
      requires |b.tail.bodies| == TailSegments && |b.tail.constraints| == TailSegments
      requires !b.body.isStatic
      modifies this`balloons, this`world, this`created
      ensures Valid()
      ensures created == old(created) + {b}
      ensures balloons == old(balloons) + [b]
      ensures world == old(world) + {b.body, b.tail}
    {
      balloons := balloons + [b];
      world := world + {b.body, b.tail};
      created := created + {b};
    }

    /** The add button: the input is trimmed; text that is empty after
        trimming creates nothing, anything else creates one balloon. */
    method AddClicked(input: string, sizeDraw: real, xDraw: real, colorDraw: real,
                      targetDraw: real, phase: real)
      requires Valid()
      requires 0.0 <= sizeDraw < 1.0 && 0.0 <= colorDraw < 1.0
      modifies this`balloons, this`world, this`created
      ensures Valid()
      ensures Text.Trim(input) == [] ==>
        balloons == old(balloons) && world == old(world) && created == old(created)
      ensures Text.Trim(input) != [] ==>
        |balloons| == |old(balloons)| + 1 && balloons[..|old(balloons)|] == old(balloons) &&
        fresh(balloons[|balloons| - 1]) && created == old(created) + {balloons[|balloons| - 1]} &&
        balloons[|balloons| - 1].text == Text.Trim(input) &&
        Spawned(balloons[|balloons| - 1], Text.Trim(input), sizeDraw, xDraw, targetDraw, phase,
                width, height, controlOffset) &&
        balloons[|balloons| - 1].color == Palette[(colorDraw * 4.0).Floor] &&
        world == old(world) + {balloons[|balloons| - 1].body, balloons[|balloons| - 1].tail}
    {
      var text := Text.Trim(input);
      if text != [] {
        var b := CreateBalloon(text, sizeDraw, xDraw, colorDraw, targetDraw, phase);
        assert balloons[..|old(balloons)|] == old(balloons);
      }
    }

    /** Focuses `b`, or unfocuses it when it is the focused balloon. Any
        focused balloon is released first; a newly focused one is frozen
        upright and its inspection panel is placed with the given panel
        size inside the field. */
    method ToggleFocus(b: Balloon, panelWidth: real, panelHeight: real)
      requires Valid() && b in created
      modifies this`focused, b`panelLeft, b`panelTop, b.body`isStatic, b.body`angle,
               (if focused == null then {} else {focused.body})`isStatic
      ensures Valid()
      ensures old(focused) == b ==> focused == null
      ensures old(focused) != b ==> focused == b
      ensures old(focused) != null && old(focused) != focused ==> !old(focused).body.isStatic
      ensures focused == b ==> b.body.isStatic && b.body.angle == 0.0
      ensures focused == b ==> b.panelLeft >= 0.0 && b.panelTop + panelHeight <= height
      ensures focused != b ==> b.panelLeft == old(b.panelLeft) && b.panelTop == old(b.panelTop)
      ensures focused != b ==> b.body.angle == old(b.body.angle)
      ensures b.body.x == old(b.body.x) && b.body.y == old(b.body.y)
    {
      var wasFocused := focused == b;
      if focused != null {
        focused.body.SetStatic(false);
      }
      focused := null;
      if !wasFocused {
        focused := b;
        b.body.SetStatic(true);
        b.body.SetAngle(0.0);
        var left, top := PlacePanel(b.body.x, b.body.y, b.size, panelWidth, panelHeight, width, height);
        b.panelLeft, b.panelTop := left, top;
      }
    }

    /** Two toggles of the same balloon in a row: from any state other than
        `b` focused, the field ends with nothing focused and `b` dynamic. */
    method ToggleFocusTwice(b: Balloon, panelWidth: real, panelHeight: real)
      requires Valid() && b in created
      modifies this`focused, b`panelLeft, b`panelTop, b.body`isStatic, b.body`angle,
               (if focused == null then {} else {focused.body})`isStatic
      ensures Valid()
      ensures old(focused) != b ==> focused == null && !b.body.isStatic
      ensures old(focused) == b ==> focused == b
    {
      ToggleFocus(b, panelWidth, panelHeight);
      ToggleFocus(b, panelWidth, panelHeight);
    }

    /** A click on the empty sky: the focused balloon, if any, is released.
        The panel size only matters when focusing, which this never does. */
    method BackgroundClick()
      requires Valid()
      modifies this`focused, (if focused == null then {} else {focused})`panelLeft,
               (if focused == null then {} else {focused})`panelTop,
               (if focused == null then {} else {focused.body})`isStatic,
               (if focused == null then {} else {focused.body})`angle
      ensures Valid()
      ensures focused == null
      ensures old(focused) != null ==> !old(focused).body.isStatic
      ensures old(focused) != null ==>
        old(focused).panelLeft == old(focused.panelLeft) && old(focused).panelTop == old(focused.panelTop)
      ensures old(focused) != null ==> old(focused).body.angle == old(focused.body.angle)
    {
      if focused != null {
        ToggleFocus(focused, 0.0, 0.0);
      }
    }

    /** The complete button: the burst origin is the body's position; the
        balloon is found by identity and, when present, its body and tail
        leave the world and it leaves the registry. Focus is left alone. */
    method Complete(b: Balloon) returns (burst: Vec)
      requires Valid() && b in created
      modifies this`balloons, this`world
      ensures Valid()
      ensures burst == Vec(b.body.x, b.body.y)
      ensures b !in balloons
      ensures balloons == Registry.Without(old(balloons), b)
      ensures b in old(balloons) ==> |balloons| == |old(balloons)| - 1
      ensures b !in old(balloons) ==> balloons == old(balloons) && world == old(world)
      ensures world == old(world) - {b.body, b.tail}
      ensures focused == old(focused)
    {
      burst := Vec(b.body.x, b.body.y);
      var index := Registry.FindIndex(balloons, b);
      if index > -1 {
        Registry.RemoveAtIsWithout(balloons, index);
        Unregister(index);
      } else {
        Registry.WithoutAbsent(balloons, b);
      }
    }

    /** Removes the balloon at `index` of the registry: its body and tail
        leave the world and the entry is spliced out. */
    method Unregister(index: nat)
      requires Valid() && index < |balloons|
      modifies this`balloons, this`world
      ensures Valid()
      ensures balloons == old(balloons[..index] + balloons[index + 1..])
      ensures world == old(world) - {old(balloons[index]).body, old(balloons[index]).tail}
      ensures focused == old(focused)
    {
      var b := balloons[index];
      world := world - {b.body, b.tail};
      Registry.RemoveAtDistinct(balloons, index);
      balloons := balloons[..index] + balloons[index + 1..];
      assert b !in balloons;
    }

    /** End of the popping animation of a completed balloon: it loses the
        focus if it still holds it. */
    method AnimationEnd(b: Balloon)
      requires Valid() && b in created && b !in balloons
      modifies this`focused
      ensures Valid()
      ensures focused == if old(focused) == b then null else old(focused)
    {
      if focused == b {
        focused := null;
      }
    }

    /** One engine step's drift pass over the registry: every balloon but
        the focused one advances its drift phase and receives its force
        (`forces[i]` for `balloons[i]`); the focused one is left alone. */
    method BeforeUpdate(forces: seq<Vec>)
      requires Valid() && |forces| == |balloons|
      modifies (set i | 0 <= i < |balloons| :: balloons[i])`driftPhase
      modifies set i | 0 <= i < |balloons| :: balloons[i].body.force
      ensures Valid()
      ensures forall i :: 0 <= i < |balloons| ==> Drifted(balloons[i], old(balloons[i].driftPhase),
        old(balloons[i].body.force.x), old(balloons[i].body.force.y), forces[i])
      ensures forall i :: 0 <= i < |balloons| ==> balloons[i].text == old(balloons[i].text)
    {
      var i := 0;
      while i < |balloons|
        invariant 0 <= i <= |balloons|
        invariant forall k :: 0 <= k < i ==> Drifted(balloons[k], old(balloons[k].driftPhase),
          old(balloons[k].body.force.x), old(balloons[k].body.force.y), forces[k])
        invariant forall k :: i <= k < |balloons| ==>
          balloons[k].driftPhase == old(balloons[k].driftPhase) &&
          balloons[k].body.force.x == old(balloons[k].body.force.x) &&
          balloons[k].body.force.y == old(balloons[k].body.force.y)
      {
        var balloon := balloons[i];
        if balloon != focused {
          balloon.Drift(forces[i]);
        }
        i := i + 1;
      }
    }

    /** The effect of one drift pass on balloon `b`, given its drift phase
        and accumulated force before the pass and the force computed for
        it: nothing at all when it is focused. */
    ghost predicate Drifted(b: Balloon, phase: real, forceX: real, forceY: real, f: Vec)
      reads this, b, b.body.force
    {
      if b == focused then
        b.driftPhase == phase && b.body.force.x == forceX && b.body.force.y == forceY
      else
        b.driftPhase == phase + DriftStep && b.body.force.x == forceX + f.x && b.body.force.y == forceY + f.y
    }
  }
}
