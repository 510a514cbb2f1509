/**
 * The three shape kinds of the drawing surface (src/shapes/Circle.ts,
 * src/shapes/Rectangle.ts, src/shapes/Square.ts).
 *
 * `Figure` is the state of one shape object. A Square is a Rectangle whose
 * constructor passes `side` as both width and height, so it is the
 * Rectangle variant with equal extents. `Shape` is the object itself: the
 * shape list and the drag modes hold references to it, and
 * `UpdateReferencePoint` moves it in place.
 */
module Shapes {
  import opened Wrappers
  import opened Js
  import opened Geometry

  /** Fill colour (may be undefined), line colour and line width of a shape. */
  datatype Style = Style(fillColor: JsValue, lineColor: JsValue, lineWidth: JsValue)

  datatype Figure =
    | Circle(center: Point, radius: real, style: Style)
    | Rectangle(topLeftCorner: Point, width: real, height: real, style: Style)
  {
    /**
     * `isInShape(point)`: the tolerance-aware hit test of each kind. Every
     * point of a closed rectangle hits it, and so does the centre of a circle
     * with a non-negative radius.
     */
    predicate IsInShape(p: Point)
      ensures Rectangle? && Min(topLeftCorner.x, topLeftCorner.x + width) <= p.x <= Max(topLeftCorner.x, topLeftCorner.x + width)
              && Min(topLeftCorner.y, topLeftCorner.y + height) <= p.y <= Max(topLeftCorner.y, topLeftCorner.y + height)
              ==> IsInShape(p)
      ensures Circle? && radius >= 0.0 && p == center ==> IsInShape(p)
    {
      match this
      case Circle(c, r, _) => CircleHit(p.x - c.x, p.y - c.y, r)
      case Rectangle(tl, w, h, _) =>
        Between(p.y, tl.y, tl.y + h) && Between(p.x, tl.x, tl.x + w)
    }

    /** The reference point: the centre of a circle, the top-left corner of a rectangle. */
    function ReferencePoint(): Point {
      match this
      case Circle(c, _, _) => c
      case Rectangle(tl, _, _, _) => tl
    }

    /** The state after `updateReferencePoint(dx, dy)`. */
    function UpdatedReferencePoint(dx: real, dy: real): (f: Figure)
      ensures f.ReferencePoint() == ReferencePoint().Plus(dx, dy)
      ensures f.Circle? == Circle? && f.style == style
      ensures Circle? ==> f.radius == radius
      ensures Rectangle? ==> f.width == width && f.height == height
    {
      match this
      case Circle(c, r, s) => Circle(c.Plus(dx, dy), r, s)
      case Rectangle(tl, w, h, s) => Rectangle(tl.Plus(dx, dy), w, h, s)
    }
  }

  /**
   * The circle test `hypot(dx, dy) - radius <= 2` stated on squared
   * distances: see CircleHitMatchesHypot.
   */
  predicate CircleHit(dx: real, dy: real, radius: real) {
    radius + Tolerance >= 0.0
    && dx * dx + dy * dy <= (radius + Tolerance) * (radius + Tolerance)
  }

  /** The squared-distance test is exactly `isInShape`'s `distance - radius <= 2`. */
  lemma CircleHitMatchesHypot(h: real, dx: real, dy: real, radius: real)
    requires IsHypot(h, dx, dy)
    ensures CircleHit(dx, dy, radius) <==> h - radius <= 2.0
  {
    if radius + Tolerance >= 0.0 {
      SquareMonotone(h, radius + Tolerance);
    }
  }

  /** The line width a constructor stores when its last argument may be omitted. */
  const DefaultLineWidth: JsValue := Num(1.0)

  /**
   * `new Rectangle(...)`: stores corner, sizes and colours as given, with no
   * validation of the sizes; only an omitted lineWidth defaults to 1.
   */
  function NewRectangle(topLeftCorner: Point, width: real, height: real,
                        fillColor: JsValue, lineColor: JsValue, lineWidth: JsValue): (f: Figure)
    ensures f.Rectangle? && f.topLeftCorner == topLeftCorner && f.width == width && f.height == height
    ensures f.style.fillColor == fillColor && f.style.lineColor == lineColor
    ensures f.style.lineWidth == if lineWidth.Undefined? then Num(1.0) else lineWidth
  {
    Rectangle(topLeftCorner, width, height,
              Style(fillColor, lineColor, DefaultParam(lineWidth, DefaultLineWidth)))
  }

  /** `new Square(...)`: a Rectangle with width = height = side; corner and style pass through. */
  function NewSquare(topLeftCorner: Point, side: real,
                     fillColor: JsValue, lineColor: JsValue, lineWidth: JsValue): (f: Figure)
    ensures f.Rectangle? && f.width == side && f.height == side && f.topLeftCorner == topLeftCorner
    ensures f.style == Style(fillColor, lineColor, DefaultParam(lineWidth, DefaultLineWidth))
  {
    NewRectangle(topLeftCorner, side, side, fillColor, lineColor, lineWidth)
  }

  /** The message the Circle constructor throws. */
  const NegativeRadius: string := "Radius must be >= 0"

  /** `new Circle(...)`: throws when the radius is negative, lineWidth defaults to 1. */
  function NewCircle(center: Point, radius: real,
                     fillColor: JsValue, lineColor: JsValue, lineWidth: JsValue): (r: Result<Figure, string>)
    ensures r.Failure? <==> radius < 0.0
    ensures r.Failure? ==> r.error == NegativeRadius
    ensures r.Success? ==> r.value == Circle(center, radius,
              Style(fillColor, lineColor, DefaultParam(lineWidth, DefaultLineWidth)))
  {
    if radius < 0.0 then Failure(NegativeRadius)
    else Success(Circle(center, radius, Style(fillColor, lineColor, DefaultParam(lineWidth, DefaultLineWidth))))
  }

  // ---------------------------------------------------------------- Rectangle

  /** The rectangle hit test is `between` on both axes. */
  lemma RectangleHitTest(f: Figure, p: Point)
    requires f.Rectangle?
    ensures f.IsInShape(p) <==>
      Between(p.y, f.topLeftCorner.y, f.topLeftCorner.y + f.height)
      && Between(p.x, f.topLeftCorner.x, f.topLeftCorner.x + f.width)
  {
  }

  /**
   * Every point of the closed rectangle hits; a point more than 2 outside
   * either axis range misses.
   */
  lemma RectangleHitRegion(f: Figure, p: Point)
    requires f.Rectangle?
    ensures var l, r := Min(f.topLeftCorner.x, f.topLeftCorner.x + f.width), Max(f.topLeftCorner.x, f.topLeftCorner.x + f.width);
      var t, b := Min(f.topLeftCorner.y, f.topLeftCorner.y + f.height), Max(f.topLeftCorner.y, f.topLeftCorner.y + f.height);
      (l <= p.x <= r && t <= p.y <= b ==> f.IsInShape(p))
      && (p.x < l - 2.0 || p.x > r + 2.0 || p.y < t - 2.0 || p.y > b + 2.0 ==> !f.IsInShape(p))
  {
  }

  // ---------------------------------------------------------------- Square

  /** The inherited translation keeps a square square. */
  lemma SquareStaysSquare(tl: Point, side: real, fill: JsValue, line: JsValue, lw: JsValue, dx: real, dy: real)
    ensures var g := NewSquare(tl, side, fill, line, lw).UpdatedReferencePoint(dx, dy);
      g.Rectangle? && g.width == g.height == side
  {
  }

  /** The square's hit test is the rectangle test with both extents equal to side. */
  lemma SquareHitTest(tl: Point, side: real, fill: JsValue, line: JsValue, lw: JsValue, p: Point)
    ensures NewSquare(tl, side, fill, line, lw).IsInShape(p) <==>
      Between(p.y, tl.y, tl.y + side) && Between(p.x, tl.x, tl.x + side)
  {
  }

  // ---------------------------------------------------------------- Circle

  /** Radius 0 is accepted, any negative radius is rejected. */
  lemma CircleConstructorBoundary(c: Point, fill: JsValue, line: JsValue, lw: JsValue)
    ensures NewCircle(c, 0.0, fill, line, lw).Success?
    ensures forall r: real :: r < 0.0 ==> NewCircle(c, r, fill, line, lw) == Failure(NegativeRadius)
  {
  }

  /** The circle hit test, read with any value the hypot oracle can give. */
  lemma CircleHitTest(f: Figure, p: Point, h: real)
    requires f.Circle? && IsHypot(h, p.x - f.center.x, p.y - f.center.y)
    ensures f.IsInShape(p) <==> h - f.radius <= 2.0
  {
    CircleHitMatchesHypot(h, p.x - f.center.x, p.y - f.center.y, f.radius);
  }

  /** The centre of a circle with a non-negative radius always hits. */
  lemma CircleCentreHits(f: Figure)
    requires f.Circle? && f.radius >= 0.0
    ensures f.IsInShape(f.center)
  {
    assert f.center.x - f.center.x == 0.0 && f.center.y - f.center.y == 0.0;
    PositiveProduct(f.radius + Tolerance, f.radius + Tolerance);
  }

  // ---------------------------------------------------------------- translation

  /** Two translations equal one by the summed delta; the zero delta is the identity. */
  lemma TranslationComposes(f: Figure, dx1: real, dy1: real, dx2: real, dy2: real)
    ensures f.UpdatedReferencePoint(dx1, dy1).UpdatedReferencePoint(dx2, dy2)
         == f.UpdatedReferencePoint(dx1 + dx2, dy1 + dy2)
    ensures f.UpdatedReferencePoint(0.0, 0.0) == f
  {
  }

  /** After a translation by d, the point p + d hits exactly when p hit before. */
  lemma TranslationPreservesHits(f: Figure, p: Point, dx: real, dy: real)
    ensures f.UpdatedReferencePoint(dx, dy).IsInShape(p.Plus(dx, dy)) == f.IsInShape(p)
  {
    match f
    case Circle(c, r, _) =>
      assert (p.x + dx) - (c.x + dx) == p.x - c.x;
      assert (p.y + dy) - (c.y + dy) == p.y - c.y;
    case Rectangle(tl, w, h, _) =>
      BetweenShift(p.y, tl.y, tl.y + h, dy);
      BetweenShift(p.x, tl.x, tl.x + w, dx);
      assert tl.y + h + dy == tl.y + dy + h;
      assert tl.x + w + dx == tl.x + dx + w;
  }

  /**
   * A drag applies incremental deltas: each move translates by the step
   * from the previous drag point and makes the move point the new one.
   */
  function DragAlong(f: Figure, start: Point, moves: seq<Point>): Figure
    decreases |moves|
  {
    if moves == [] then f
    else DragAlong(f.UpdatedReferencePoint(moves[0].x - start.x, moves[0].y - start.y), moves[0], moves[1..])
  }

  /** Over moves p1..pn the total displacement is pn - p0. */
  lemma {:induction false} DragAlongTotal(f: Figure, start: Point, moves: seq<Point>)
    requires moves != []
    decreases |moves|
    ensures DragAlong(f, start, moves)
         == f.UpdatedReferencePoint(moves[|moves| - 1].x - start.x, moves[|moves| - 1].y - start.y)
  {
    var g := f.UpdatedReferencePoint(moves[0].x - start.x, moves[0].y - start.y);
    if |moves| > 1 {
      DragAlongTotal(g, moves[0], moves[1..]);
      var last := moves[|moves| - 1];
      TranslationComposes(f, moves[0].x - start.x, moves[0].y - start.y, last.x - moves[0].x, last.y - moves[0].y);
      assert (moves[0].x - start.x) + (last.x - moves[0].x) == last.x - start.x;
      assert (moves[0].y - start.y) + (last.y - moves[0].y) == last.y - start.y;
    }
  }

  // ---------------------------------------------------------------- objects

  /** A shape object: the shape list and the modes hold references to it. */
  class Shape {
    var figure: Figure

    constructor (figure: Figure)
      ensures this.figure == figure
    {
      this.figure := figure;
    }

    /** `updateReferencePoint(dx, dy)`: moves the reference point in place, nothing else changes. */
    method UpdateReferencePoint(dx: real, dy: real)
      modifies this
      ensures figure == old(figure).UpdatedReferencePoint(dx, dy)
    {
      figure := figure.UpdatedReferencePoint(dx, dy);
    }
  }

  /** The states of the shapes a list refers to, in list order. */
  function Figures(shapes: seq<Shape>): (fs: seq<Figure>)
    reads shapes
    ensures |fs| == |shapes|
    ensures forall i :: 0 <= i < |shapes| ==> fs[i] == shapes[i].figure
  {
    if shapes == [] then [] else [shapes[0].figure] + Figures(shapes[1..])
  }

  /** The index of the first figure in list order that the point hits. */
  function FirstHit(fs: seq<Figure>, p: Point): (r: Option<nat>)
    ensures r.None? <==> forall i :: 0 <= i < |fs| ==> !fs[i].IsInShape(p)
    ensures r.Some? ==> r.value < |fs| && fs[r.value].IsInShape(p)
                        && forall j :: 0 <= j < r.value ==> !fs[j].IsInShape(p)
  {
    if fs == [] then None
    else if fs[0].IsInShape(p) then Some(0)
    else match FirstHit(fs[1..], p)
      case None => None
      case Some(i) => Some(i + 1)
  }

  /** An array literal of six `new` shape expressions: six new, distinct objects in order. */
  method NewShapes(figures: seq<Figure>) returns (shapes: seq<Shape>)
    requires |figures| == 6
    ensures |shapes| == 6 && forall i :: 0 <= i < 6 ==> shapes[i].figure == figures[i]
    ensures forall i :: 0 <= i < |shapes| ==> fresh(shapes[i])
    ensures forall i, j :: 0 <= i < j < |shapes| ==> shapes[i] != shapes[j]
  {
    var s0 := new Shape(figures[0]);
    var s1 := new Shape(figures[1]);
    var s2 := new Shape(figures[2]);
    var s3 := new Shape(figures[3]);
    var s4 := new Shape(figures[4]);
    var s5 := new Shape(figures[5]);
    shapes := [s0, s1, s2, s3, s4, s5];
  }

  /**
   * The list grew by exactly one shape, at the end, whose state is `f`; the
   * earlier entries are the same objects in the same order.
   */
  ghost predicate AppendedOne(before: seq<Shape>, after: seq<Shape>, f: Figure)
    reads after
  {
    |after| == |before| + 1 && after[..|before|] == before && after[|before|].figure == f
  }

  /** FirstHit is determined by its characterisation (used to close the hit loops). */
  lemma FirstHitAt(fs: seq<Figure>, p: Point, i: nat)
    requires i < |fs| && fs[i].IsInShape(p)
    requires forall j :: 0 <= j < i ==> !fs[j].IsInShape(p)
    ensures FirstHit(fs, p) == Some(i)
  {
  }
}
