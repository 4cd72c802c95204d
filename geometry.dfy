/** Pure geometry of the balloon field: the boundary walls, the band a
    balloon's target height is drawn from, and where the inspection panel
    of a focused balloon is placed. All pixel quantities are reals. */
module Geometry {

  datatype Vec = Vec(x: real, y: real)

  /** Thickness of each of the four boundary walls. */
  const WallThickness: real := 50.0
  /** Gap between the bottom edge of the control strip and the top wall. */
  const ControlGap: real := 10.0
  /** Clearance between the top wall and the highest target height. */
  const TargetTopMargin: real := 20.0
  /** Clearance between the highest target depth and the field floor. */
  const TargetFloorMargin: real := 50.0
  /** Horizontal gap between a balloon's edge and its inspection panel. */
  const PanelGap: real := 15.0
  /** Inset used when the panel is pushed back inside the field. */
  const PanelInset: real := 10.0

  function Min(a: real, b: real): real { if a <= b then a else b }
  function Max(a: real, b: real): real { if a >= b then a else b }

  /** The y coordinate of the top wall's inner face: the bottom edge of the
      controls (their offset from the top plus their height) plus a gap. */
  function ControlOffset(offsetTop: real, offsetHeight: real): (r: real)
    ensures r > offsetTop + offsetHeight
  {
    offsetTop + offsetHeight + ControlGap
  }

  // ---------------------------------------------------------------------
  // Walls, in the order bottom, top, left, right.

  /** Centres of the four walls for a field of the given size. */
  function WallCenters(width: real, height: real, controlOffset: real): (r: seq<Vec>)
    ensures |r| == 4
    ensures r[0].x == width / 2.0 && r[1].x == width / 2.0
    ensures r[2].y == height / 2.0 && r[3].y == height / 2.0
  {
    [ Vec(width / 2.0, height + WallThickness / 2.0),
      Vec(width / 2.0, controlOffset - WallThickness / 2.0),
      Vec(-WallThickness / 2.0, height / 2.0),
      Vec(width + WallThickness / 2.0, height / 2.0) ]
  }

  /** Extents (width, height) the four walls are created with. */
  function WallExtents(width: real, height: real): (r: seq<Vec>)
    ensures |r| == 4
    ensures forall k :: 0 <= k < 4 ==> HasWallThickness(k, r[k])
  {
    [ Vec(width, WallThickness), Vec(width, WallThickness),
      Vec(WallThickness, height), Vec(WallThickness, height) ]
  }

  /** The bottom and top walls are WallThickness tall, the side walls
      WallThickness wide; their other extent is free. */
  predicate HasWallThickness(k: int, extent: Vec)
  {
    if k < 2 then extent.y == WallThickness else extent.x == WallThickness
  }

  /** `p` lies strictly inside the axis-aligned box of the given centre and extent. */
  predicate StrictlyInside(p: Vec, center: Vec, extent: Vec)
  {
    center.x - extent.x / 2.0 < p.x < center.x + extent.x / 2.0 &&
    center.y - extent.y / 2.0 < p.y < center.y + extent.y / 2.0
  }

  /** The inner face of each wall, given its centre: the top face of the
      bottom wall, the bottom face of the top wall, the right face of the
      left wall, the left face of the right wall. */
  function InnerFace(k: int, center: Vec): real
  {
    if k == 0 then center.y - WallThickness / 2.0
    else if k == 1 then center.y + WallThickness / 2.0
    else if k == 2 then center.x + WallThickness / 2.0
    else center.x - WallThickness / 2.0
  }

  /** The inner faces of the walls are exactly the field's edges: the floor
      at `height`, the ceiling at `controlOffset`, the sides at 0 and `width`. */
  lemma WallFaces(width: real, height: real, controlOffset: real)
    ensures var c := WallCenters(width, height, controlOffset);
      InnerFace(0, c[0]) == height && InnerFace(1, c[1]) == controlOffset &&
      InnerFace(2, c[2]) == 0.0 && InnerFace(3, c[3]) == width
  {
  }

  /** No point of the playable field, the closed box between the side walls
      and between the ceiling and the floor, lies inside any wall, whatever
      lengths the walls have, as long as their thickness is WallThickness. */
  lemma FieldClearOfWalls(width: real, height: real, controlOffset: real, extents: seq<Vec>, p: Vec)
    requires |extents| == 4 && forall k :: 0 <= k < 4 ==> HasWallThickness(k, extents[k])
    requires 0.0 <= p.x <= width && controlOffset <= p.y <= height
    ensures forall k :: 0 <= k < 4 ==> !StrictlyInside(p, WallCenters(width, height, controlOffset)[k], extents[k])
  {
    var c := WallCenters(width, height, controlOffset);
    assert !StrictlyInside(p, c[0], extents[0]) by { assert extents[0].y == WallThickness; }
    assert !StrictlyInside(p, c[1], extents[1]) by { assert extents[1].y == WallThickness; }
    assert !StrictlyInside(p, c[2], extents[2]) by { assert extents[2].x == WallThickness; }
    assert !StrictlyInside(p, c[3], extents[3]) by { assert extents[3].x == WallThickness; }
  }

  // ---------------------------------------------------------------------
  // Target height of a balloon.

  /** Sign of a product with a non-negative factor. */
  lemma ProductSign(a: real, b: real)
    requires 0.0 <= a
    ensures 0.0 <= b ==> 0.0 <= a * b
    ensures 0.0 < a && b < 0.0 ==> a * b < 0.0
  {
  }

  /** Highest allowed target (smallest y): below the controls by the
      balloon's radius plus a margin. */
  function MinTargetY(controlOffset: real, size: real): (r: real)
    ensures r - size > controlOffset
  {
    controlOffset + size + TargetTopMargin
  }

  /** Lowest allowed target (largest y): above the floor by the balloon's
      radius plus a margin. */
  function MaxTargetY(height: real, size: real): (r: real)
    ensures r + size < height
  {
    height - size - TargetFloorMargin
  }

  /** The target height of a new balloon of radius `size`, from a uniform
      draw in [0, 1): mapped linearly onto the band, then clamped to it,
      the lower bound applied last. */
  function TargetY(controlOffset: real, height: real, size: real, draw: real): (r: real)
    ensures r >= MinTargetY(controlOffset, size)
    ensures MinTargetY(controlOffset, size) <= MaxTargetY(height, size) ==>
      r <= MaxTargetY(height, size)
    ensures var lo, hi := MinTargetY(controlOffset, size), MaxTargetY(height, size);
      lo <= hi && 0.0 <= draw <= 1.0 ==> r == lo + draw * (hi - lo)
    ensures var lo, hi := MinTargetY(controlOffset, size), MaxTargetY(height, size);
      hi < lo ==> r == lo
  {
    var lo := MinTargetY(controlOffset, size);
    var hi := MaxTargetY(height, size);
    var drawn := draw * (hi - lo) + lo;
    assert 0.0 <= draw <= 1.0 && lo <= hi ==> lo <= drawn <= hi by {
      if 0.0 <= draw <= 1.0 && lo <= hi {
        ProductSign(draw, hi - lo);
        ProductSign(1.0 - draw, hi - lo);
      }
    }
    Max(lo, Min(hi, drawn))
  }

  // ---------------------------------------------------------------------
  // Placement of the inspection panel.

  /** Left edge of the panel when it sits to the right of the balloon. */
  function RightSideLeft(balloonX: real, size: real): real
  {
    balloonX + size + PanelGap
  }

  /** Left edge of the panel when it sits to the left of the balloon. */
  function LeftSideLeft(balloonX: real, size: real, panelWidth: real): real
  {
    balloonX - size - panelWidth - PanelGap
  }

  /** The panel flips to the left side when, placed on the right side,
      it would reach past the right edge of the field. */
  predicate FlipsLeft(balloonX: real, size: real, panelWidth: real, fieldWidth: real)
  {
    RightSideLeft(balloonX, size) + panelWidth > fieldWidth
  }

  /** Top edge of the panel when it is vertically centred on the balloon. */
  function CenteredTop(balloonY: real, panelHeight: real): real
  {
    balloonY - panelHeight / 2.0
  }

  /** Places the panel of a balloon of radius `size` centred at
      (`balloonX`, `balloonY`): to its right unless that overflows the
      field, then pushed back inside the left, top and bottom edges, in
      that order, so that the bottom edge has the last word. */
  method PlacePanel(balloonX: real, balloonY: real, size: real,
                    panelWidth: real, panelHeight: real,
                    fieldWidth: real, fieldHeight: real)
    returns (left: real, top: real)
    ensures left >= 0.0
    ensures !FlipsLeft(balloonX, size, panelWidth, fieldWidth) ==>
      left == if RightSideLeft(balloonX, size) < 0.0 then PanelInset else RightSideLeft(balloonX, size)
    ensures FlipsLeft(balloonX, size, panelWidth, fieldWidth) ==>
      left == if LeftSideLeft(balloonX, size, panelWidth) < 0.0 then PanelInset
              else LeftSideLeft(balloonX, size, panelWidth)
    ensures top + panelHeight <= fieldHeight
    ensures panelHeight + PanelInset <= fieldHeight ==> top >= 0.0
    ensures 0.0 <= CenteredTop(balloonY, panelHeight) &&
            CenteredTop(balloonY, panelHeight) + panelHeight <= fieldHeight ==>
      top == CenteredTop(balloonY, panelHeight)
    ensures CenteredTop(balloonY, panelHeight) < 0.0 && PanelInset + panelHeight <= fieldHeight ==>
      top == PanelInset
    ensures (CenteredTop(balloonY, panelHeight) + panelHeight > fieldHeight ||
             (CenteredTop(balloonY, panelHeight) < 0.0 && PanelInset + panelHeight > fieldHeight)) ==>
      top == fieldHeight - panelHeight - PanelInset
  {
    left := RightSideLeft(balloonX, size);
    top := CenteredTop(balloonY, panelHeight);

    if left + panelWidth > fieldWidth {
      left := LeftSideLeft(balloonX, size, panelWidth);
    }
    if left < 0.0 {
      left := PanelInset;
    }
    if top < 0.0 {
      top := PanelInset;
    }
    if top + panelHeight > fieldHeight {
      top := fieldHeight - panelHeight - PanelInset;
    }
  }
}
