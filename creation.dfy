/**
 * The centred-growth geometry every creation gesture uses. The formulas are
 * written inline in each create mode and in src/canvas/Canvas.ts; they are
 * defined once here.
 */
module Creation {
  import opened Geometry

  /** `Math.max(1, hypot)`: the radius of a circle being dragged out. */
  function CircleRadius(h: real): (r: real)
    ensures r >= 1.0 && r >= h
    ensures r == 1.0 || r == h
  {
    Max(1.0, h)
  }

  /** `Math.max(2, Math.abs(d) * 2)`: one side of a rectangle being dragged out. */
  function Extent(d: real): (e: real)
    ensures e >= 2.0 && e >= 2.0 * Abs(d)
    ensures e == 2.0 || e == 2.0 * Abs(d)
  {
    Max(2.0, Abs(d) * 2.0)
  }

  /** `Math.max(2, Math.max(|dx|, |dy|) * 2)`: the side of a square being dragged out. */
  function SquareSide(dx: real, dy: real): (s: real)
    ensures s >= 2.0 && s >= 2.0 * Abs(dx) && s >= 2.0 * Abs(dy)
    ensures s == 2.0 || s == 2.0 * Abs(dx) || s == 2.0 * Abs(dy)
  {
    Max(2.0, Max(Abs(dx), Abs(dy)) * 2.0)
  }

  /** An axis-aligned box: top-left corner and extents. */
  datatype Box = Box(topLeft: Point, width: real, height: real)

  /** The box of the given extents whose centre is the anchor. */
  function CenteredOn(anchor: Point, width: real, height: real): (b: Box)
    ensures b.width == width && b.height == height
    ensures b.topLeft.x + width / 2.0 == anchor.x && b.topLeft.y + height / 2.0 == anchor.y
  {
    Box(Point(anchor.x - width / 2.0, anchor.y - height / 2.0), width, height)
  }

  /** The rectangle dragged from `anchor` to `current`. */
  function RectangleBox(anchor: Point, current: Point): Box {
    CenteredOn(anchor, Extent(current.x - anchor.x), Extent(current.y - anchor.y))
  }

  /** The square dragged from `anchor` to `current`. */
  function SquareBox(anchor: Point, current: Point): Box {
    var side := SquareSide(current.x - anchor.x, current.y - anchor.y);
    CenteredOn(anchor, side, side)
  }

  /**
   * Both boxes are centred on the anchor, at least 2 wide and high, and the
   * square's extents are equal.
   */
  lemma BoxesCentredWithFloor(anchor: Point, current: Point)
    ensures var r := RectangleBox(anchor, current);
      r.topLeft.x + r.width / 2.0 == anchor.x && r.topLeft.y + r.height / 2.0 == anchor.y
      && r.width >= 2.0 && r.height >= 2.0
    ensures var s := SquareBox(anchor, current);
      s.topLeft.x + s.width / 2.0 == anchor.x && s.topLeft.y + s.height / 2.0 == anchor.y
      && s.width == s.height && s.width >= 2.0
  {
  }

  /** The pointer always lies inside the closed box it drags out. */
  lemma PointerInsideBox(anchor: Point, current: Point)
    ensures var r := RectangleBox(anchor, current);
      r.topLeft.x <= current.x <= r.topLeft.x + r.width
      && r.topLeft.y <= current.y <= r.topLeft.y + r.height
    ensures var s := SquareBox(anchor, current);
      s.topLeft.x <= current.x <= s.topLeft.x + s.width
      && s.topLeft.y <= current.y <= s.topLeft.y + s.height
  {
  }

  /** With no movement: radius 1, a side-2 square and a 2x2 rectangle, centred on the anchor. */
  lemma ZeroMovementFloors(anchor: Point)
    ensures CircleRadius(0.0) == 1.0
    ensures SquareBox(anchor, anchor) == Box(Point(anchor.x - 1.0, anchor.y - 1.0), 2.0, 2.0)
    ensures RectangleBox(anchor, anchor) == Box(Point(anchor.x - 1.0, anchor.y - 1.0), 2.0, 2.0)
  {
  }

  /** A zero movement on one axis still gives extent 2 on that axis. */
  lemma RectangleAxisFloor(anchor: Point, current: Point)
    requires current.y == anchor.y
    ensures RectangleBox(anchor, current).height == 2.0
  {
  }

  /** Beyond the floor, a drag by (dx, dy) gives a square of side 2 max(|dx|, |dy|). */
  lemma SquareSideBeyondFloor(anchor: Point, current: Point)
    requires Max(Abs(current.x - anchor.x), Abs(current.y - anchor.y)) >= 1.0
    ensures SquareBox(anchor, current).width
         == 2.0 * Max(Abs(current.x - anchor.x), Abs(current.y - anchor.y))
  {
  }

  /** From (50,50) to (70,80): width 40, height 60, top-left (30,20). */
  lemma RectangleExample()
    ensures RectangleBox(Point(50.0, 50.0), Point(70.0, 80.0)) == Box(Point(30.0, 20.0), 40.0, 60.0)
  {
  }
}
