/**
 * The monolithic engine of src/canvas/Canvas.ts: one object that switches
 * on a string mode. In 'select' it picks and drags shapes; in the three
 * creation modes a press starts a preview centred on the press point, moves
 * update it, and release adds a shape computed from the release point with
 * the same formulas.
 *
 * Painting (`drawShapes`, `drawShapesWithPreview`) is not modelled. The
 * pointer's client position and the element's bounding rectangle are
 * inputs; `Math.hypot` of the pointer's offset from the anchor is supplied
 * as `h` (see Geometry.IsHypot).
 */
module CanvasEngine {
  import opened Wrappers
  import opened Js
  import opened Geometry
  import opened Shapes
  import opened Creation

  /** `CanvasMode`: the string modes of the engine. */
  datatype CanvasMode = Select | CreateCircle | CreateSquare | CreateRectangle
  {
    function Name(): string {
      match this
      case Select => "select"
      case CreateCircle => "create_circle"
      case CreateSquare => "create_square"
      case CreateRectangle => "create_rectangle"
    }

    predicate IsCreation() {
      !Select?
    }
  }

  /** The mode strings are distinct, so a mode is determined by its name. */
  lemma ModeNamesDistinct(a: CanvasMode, b: CanvasMode)
    ensures a.Name() == b.Name() <==> a == b
  {
  }

  /** The client coordinates of a mouse event. */
  datatype MouseEvent = MouseEvent(clientX: real, clientY: real)

  /** The result of `getBoundingClientRect()`: the element's on-screen box. */
  datatype ClientRect = ClientRect(left: real, top: real, width: real, height: real)

  /**
   * `getCanvasPoint`: the client position relative to the element, scaled
   * from the on-screen size to the canvas buffer size.
   */
  function CanvasPoint(event: MouseEvent, rect: ClientRect, bufferWidth: real, bufferHeight: real): (p: Point)
    requires rect.width != 0.0 && rect.height != 0.0
    ensures event.clientX == rect.left && event.clientY == rect.top ==> p == Point(0.0, 0.0)
    ensures event.clientX == rect.left + rect.width && event.clientY == rect.top + rect.height
            ==> p == Point(bufferWidth, bufferHeight)
  {
    Point((event.clientX - rect.left) * (bufferWidth / rect.width),
          (event.clientY - rect.top) * (bufferHeight / rect.height))
  }

  /** Mapping back from canvas to client coordinates recovers the event position. */
  lemma CanvasPointInverse(event: MouseEvent, rect: ClientRect, bufferWidth: real, bufferHeight: real)
    requires rect.width != 0.0 && rect.height != 0.0 && bufferWidth != 0.0 && bufferHeight != 0.0
    ensures var p := CanvasPoint(event, rect, bufferWidth, bufferHeight);
      rect.left + p.x * (rect.width / bufferWidth) == event.clientX
      && rect.top + p.y * (rect.height / bufferHeight) == event.clientY
  {
    assert (bufferWidth / rect.width) * (rect.width / bufferWidth) == 1.0;
    assert (bufferHeight / rect.height) * (rect.height / bufferHeight) == 1.0;
  }

  /** Without CSS scaling the canvas point is the offset from the element's corner. */
  lemma CanvasPointUnscaled(event: MouseEvent, rect: ClientRect)
    requires rect.width != 0.0 && rect.height != 0.0
    ensures CanvasPoint(event, rect, rect.width, rect.height)
         == Point(event.clientX - rect.left, event.clientY - rect.top)
  {
  }

  /**
   * `#makePreviewForMode`: the translucent preview of each creation mode,
   * none in select mode.
   */
  function MakePreviewForMode(mode: CanvasMode, anchor: Point, current: Point, h: real): (r: Option<Figure>)
    requires IsHypot(h, current.x - anchor.x, current.y - anchor.y)
    ensures r.None? <==> mode.Select?
    ensures mode.CreateCircle? ==> r.value.Circle? && r.value.center == anchor && r.value.radius >= 1.0
    ensures mode.CreateSquare? ==> r.value.Rectangle? && r.value.width == r.value.height >= 2.0
    ensures mode.CreateRectangle? ==> r.value.Rectangle? && r.value.width >= 2.0 && r.value.height >= 2.0
    ensures r.Some? ==> r.value.style.lineWidth == Num(2.0)
  {
    BoxesCentredWithFloor(anchor, current);
    match mode
    case Select => None
    case CreateCircle =>
      Some(NewCircle(anchor, CircleRadius(h), Str("rgba(77,150,255,0.2)"), Str("#4D96FF"), Num(2.0)).value)
    case CreateSquare =>
      var b := SquareBox(anchor, current);
      Some(NewSquare(b.topLeft, b.width, Str("rgba(255,217,61,0.2)"), Str("#6BCB77"), Num(2.0)))
    case CreateRectangle =>
      var b := RectangleBox(anchor, current);
      Some(NewRectangle(b.topLeft, b.width, b.height, Str("rgba(132,94,194,0.2)"), Str("#845EC2"), Num(2.0)))
  }

  /** `#finalizeCreate`: the shape a release commits, with the final colours. */
  function FinalizeCreate(mode: CanvasMode, anchor: Point, current: Point, h: real): (r: Option<Figure>)
    requires IsHypot(h, current.x - anchor.x, current.y - anchor.y)
    ensures r.None? <==> mode.Select?
    ensures r.Some? ==> (r.value.Circle? <==> mode.CreateCircle?)
    ensures r.Some? ==> r.value.style.lineWidth == Num(3.0)
  {
    match mode
    case Select => None
    case CreateCircle =>
      Some(NewCircle(anchor, CircleRadius(h), Str("#4D96FF"), Str("#4D96FF"), Num(3.0)).value)
    case CreateSquare =>
      var b := SquareBox(anchor, current);
      Some(NewSquare(b.topLeft, b.width, Str("#FFD93D"), Str("#6BCB77"), Num(3.0)))
    case CreateRectangle =>
      var b := RectangleBox(anchor, current);
      Some(NewRectangle(b.topLeft, b.width, b.height, Str("#845EC2"), Str("#845EC2"), Num(3.0)))
  }

  /** The geometry of a figure: its kind, reference point and extents, without the style. */
  function Outline(f: Figure): Figure {
    f.(style := Style(Undefined, Undefined, Undefined))
  }

  /**
   * The committed shape: none exactly in select mode; otherwise a circle of
   * radius max(1, hypot) centred on the anchor, or the square or rectangle
   * dragged out from the anchor to the release point, each in its kind's
   * final colours at line width 3.
   */
  lemma FinalizeGeometry(mode: CanvasMode, anchor: Point, current: Point, h: real)
    requires IsHypot(h, current.x - anchor.x, current.y - anchor.y)
    ensures var r := FinalizeCreate(mode, anchor, current, h);
      (r.None? <==> mode.Select?)
      && (mode.CreateCircle? ==> r.value.Circle? && r.value.center == anchor
                                 && r.value.radius == CircleRadius(h) >= 1.0)
      && (mode.CreateSquare? ==> r.value.Rectangle?
                                 && Box(r.value.topLeftCorner, r.value.width, r.value.height)
                                    == SquareBox(anchor, current)
                                 && r.value.width == r.value.height >= 2.0)
      && (mode.CreateRectangle? ==> r.value.Rectangle?
                                    && Box(r.value.topLeftCorner, r.value.width, r.value.height)
                                       == RectangleBox(anchor, current)
                                    && r.value.width >= 2.0 && r.value.height >= 2.0)
      && (mode.CreateCircle? ==> r.value.style == Style(Str("#4D96FF"), Str("#4D96FF"), Num(3.0)))
      && (mode.CreateSquare? ==> r.value.style == Style(Str("#FFD93D"), Str("#6BCB77"), Num(3.0)))
      && (mode.CreateRectangle? ==> r.value.style == Style(Str("#845EC2"), Str("#845EC2"), Num(3.0)))
  {
    BoxesCentredWithFloor(anchor, current);
  }

  /** Preview and committed shape have the same geometry; only the style differs. */
  lemma PreviewMatchesFinal(mode: CanvasMode, anchor: Point, current: Point, h: real)
    requires IsHypot(h, current.x - anchor.x, current.y - anchor.y)
    ensures var p := MakePreviewForMode(mode, anchor, current, h);
            var f := FinalizeCreate(mode, anchor, current, h);
      p.Some? == f.Some? && (p.Some? ==> Outline(p.value) == Outline(f.value))
      && (p.Some? ==> p.value.style.lineWidth == Num(2.0) && p.value.style != f.value.style)
  {
  }

  /** With no movement: a radius-1 circle, a side-2 square, a 2 x 2 rectangle, centred on the anchor. */
  lemma FinalizeZeroMovement(anchor: Point)
    ensures FinalizeCreate(CreateCircle, anchor, anchor, 0.0).value.radius == 1.0
    ensures var s := FinalizeCreate(CreateSquare, anchor, anchor, 0.0).value;
      s.topLeftCorner == Point(anchor.x - 1.0, anchor.y - 1.0) && s.width == 2.0 && s.height == 2.0
    ensures var r := FinalizeCreate(CreateRectangle, anchor, anchor, 0.0).value;
      r.topLeftCorner == Point(anchor.x - 1.0, anchor.y - 1.0) && r.width == 2.0 && r.height == 2.0
  {
    ZeroMovementFloors(anchor);
  }

  /** `initialiseShapesList`: the six seed shapes, in list order. */
  function SeedFigures(): (fs: seq<Figure>)
    ensures |fs| == 6
  {
    [ NewCircle(Point(100.0, 120.0), 5.0, Str("#FF6B6B"), Str("#FF6B6B"), Num(5.0)).value,
      NewCircle(Point(220.0, 80.0), 7.0, Str("#4D96FF"), Str("#4D96FF"), Num(3.0)).value,
      NewSquare(Point(50.0, 200.0), 60.0, Str("#6BCB77"), Str("#FFD93D"), Num(3.0)),
      NewSquare(Point(140.0, 210.0), 30.0, Str("#FFD93D"), Str("#6BCB77"), Num(2.0)),
      NewRectangle(Point(220.0, 180.0), 120.0, 60.0, Str("#845EC2"), Str("#845EC2"), Num(1.0)),
      NewRectangle(Point(380.0, 60.0), 80.0, 30.0, Str("#2C73D2"), Str("#845EC2"), Num(3.0)) ]
  }

  /** Two circles, two squares, two rectangles; every seed's own reference point hits it. */
  lemma SeedsShape()
    ensures var fs := SeedFigures();
      fs[0].Circle? && fs[1].Circle?
      && fs[2].Rectangle? && fs[2].width == fs[2].height == 60.0
      && fs[3].Rectangle? && fs[3].width == fs[3].height == 30.0
      && fs[4].Rectangle? && fs[5].Rectangle?
      && forall i :: 0 <= i < |fs| ==> fs[i].IsInShape(fs[i].ReferencePoint())
  {
    var fs := SeedFigures();
    forall i | 0 <= i < |fs|
      ensures fs[i].IsInShape(fs[i].ReferencePoint())
    {
      if fs[i].Circle? {
        CircleCentreHits(fs[i]);
      }
    }
  }

  class Canvas {
    var mousePosition: Point
    var shapesList: seq<Shape>
    var startPoint: Point
    var currentShape: Shape?
    var isDragging: bool
    var mode: CanvasMode
    var isCreating: bool
    var createAnchor: Option<Point>
    var previewShape: Option<Figure>
    /** `canvas.width` and `canvas.height`: the drawing buffer's size. */
    const bufferWidth: real
    const bufferHeight: real

    /**
     * A drag has a shape to move; a creation gesture has an anchor and a
     * preview, and only runs in a creation mode.
     */
    predicate Valid()
      reads this
    {
      (isDragging ==> currentShape != null)
      && (isCreating <==> createAnchor.Some?) && (isCreating <==> previewShape.Some?)
      && (isCreating ==> mode.IsCreation())
    }

    /** The constructor starts in select mode with the seed shapes. */
    constructor (bufferWidth: real, bufferHeight: real)
      ensures Valid() && this.bufferWidth == bufferWidth && this.bufferHeight == bufferHeight
      ensures mode == Select && !isDragging && currentShape == null && !isCreating
      ensures mousePosition == Point(0.0, 0.0) && startPoint == Point(0.0, 0.0)
      ensures Figures(shapesList) == SeedFigures()
      ensures forall i :: 0 <= i < |shapesList| ==> fresh(shapesList[i])
      ensures forall i, j :: 0 <= i < j < |shapesList| ==> shapesList[i] != shapesList[j]
    {
      this.bufferWidth := bufferWidth;
      this.bufferHeight := bufferHeight;
      mousePosition := Point(0.0, 0.0);
      startPoint := Point(0.0, 0.0);
      currentShape := null;
      isDragging := false;
      mode := Select;
      isCreating := false;
      createAnchor := None;
      previewShape := None;
      new;
      InitialiseShapesList();
    }

    /** `setMode`: switches mode and abandons any creation gesture; drag state and shapes stay. */
    method SetMode(mode: CanvasMode)
      requires Valid()
      modifies this
      ensures Valid() && this.mode == mode
      ensures !isCreating && previewShape.None? && createAnchor.None?
      ensures shapesList == old(shapesList) && isDragging == old(isDragging)
      ensures currentShape == old(currentShape) && startPoint == old(startPoint)
      ensures mousePosition == old(mousePosition)
    {
      this.mode := mode;
      isCreating := false;
      previewShape := None;
      createAnchor := None;
    }

    /**
     * mouseDown: in select mode picks the first shape that contains the
     * point (or none); in a creation mode starts a gesture with its preview.
     */
    method MouseDown(event: MouseEvent, rect: ClientRect)
      requires Valid() && rect.width != 0.0 && rect.height != 0.0
      modifies this
      ensures Valid() && mode == old(mode) && shapesList == old(shapesList)
      ensures mousePosition == old(mousePosition)
      ensures var p := CanvasPoint(event, rect, bufferWidth, bufferHeight);
        if mode.Select? then
          startPoint == p && !isCreating
          && (match FirstHit(Figures(shapesList), p)
              case None => !isDragging && currentShape == null
              case Some(i) => isDragging && currentShape == shapesList[i])
        else
          createAnchor == Some(p) && isCreating && previewShape == MakePreviewForMode(mode, p, p, 0.0)
          && startPoint == old(startPoint) && currentShape == old(currentShape)
          && isDragging == old(isDragging)
    {
      var p := CanvasPoint(event, rect, bufferWidth, bufferHeight);
      match mode {
        case Select =>
          startPoint := p;
          var shapes := shapesList;
          var i := 0;
          while i < |shapes|
            invariant 0 <= i <= |shapes| && startPoint == p && shapesList == shapes
            invariant forall j :: 0 <= j < i ==> !shapes[j].figure.IsInShape(p)
            invariant Valid() && mode == old(mode) && mousePosition == old(mousePosition)
          {
            if shapes[i].figure.IsInShape(startPoint) {
              currentShape := shapes[i];
              isDragging := true;
              FirstHitAt(Figures(shapes), p, i);
              return;
            }
            i := i + 1;
          }
          currentShape := null;
          isDragging := false;
        case _ =>
          createAnchor := Some(p);
          isCreating := true;
          previewShape := MakePreviewForMode(mode, p, p, 0.0);
      }
    }

    /**
     * mouseMove: in select mode, while dragging, translates the picked
     * shape by the motion since the last event; in a creation mode, during
     * a gesture, recomputes the preview for the pointer.
     */
    method MouseMove(event: MouseEvent, rect: ClientRect, h: real)
      requires Valid() && rect.width != 0.0 && rect.height != 0.0
      requires createAnchor.Some? ==>
        IsHypot(h, CanvasPoint(event, rect, bufferWidth, bufferHeight).x - createAnchor.value.x,
                   CanvasPoint(event, rect, bufferWidth, bufferHeight).y - createAnchor.value.y)
      modifies this, currentShape
      ensures Valid() && mode == old(mode) && shapesList == old(shapesList)
      ensures currentShape == old(currentShape) && isDragging == old(isDragging)
      ensures isCreating == old(isCreating) && createAnchor == old(createAnchor)
      ensures var p := CanvasPoint(event, rect, bufferWidth, bufferHeight);
        if mode.Select? && old(isDragging) && old(currentShape) != null then
          currentShape.figure == old(currentShape.figure).UpdatedReferencePoint(
            p.x - old(startPoint).x, p.y - old(startPoint).y)
          && mousePosition == p && startPoint == p && previewShape == old(previewShape)
        else
          mousePosition == old(mousePosition) && startPoint == old(startPoint)
          && (old(currentShape) != null ==> currentShape.figure == old(currentShape.figure))
          && if mode.IsCreation() && old(isCreating) then
               previewShape == MakePreviewForMode(mode, createAnchor.value, p, h)
             else
               previewShape == old(previewShape)
    {
      var p := CanvasPoint(event, rect, bufferWidth, bufferHeight);
      match mode {
        case Select =>
          if !isDragging || currentShape == null {
            return;
          }
          mousePosition := p;
          var dx := mousePosition.x - startPoint.x;
          var dy := mousePosition.y - startPoint.y;
          currentShape.UpdateReferencePoint(dx, dy);
          startPoint := mousePosition;
        case _ =>
          if !isCreating || createAnchor.None? {
            return;
          }
          previewShape := MakePreviewForMode(mode, createAnchor.value, p, h);
      }
    }

    /**
     * mouseUp: in select mode ends a drag, keeping the picked shape; in a
     * creation mode, during a gesture, adds the shape computed from the
     * anchor and the release point and ends the gesture.
     */
    method MouseUp(event: MouseEvent, rect: ClientRect, h: real)
      requires Valid() && rect.width != 0.0 && rect.height != 0.0
      requires createAnchor.Some? ==>
        IsHypot(h, CanvasPoint(event, rect, bufferWidth, bufferHeight).x - createAnchor.value.x,
                   CanvasPoint(event, rect, bufferWidth, bufferHeight).y - createAnchor.value.y)
      modifies this
      ensures Valid() && mode == old(mode) && currentShape == old(currentShape)
      ensures startPoint == old(startPoint) && mousePosition == old(mousePosition)
      ensures mode.Select? ==>
        !isDragging && shapesList == old(shapesList)
        && isCreating == old(isCreating) && createAnchor == old(createAnchor) && previewShape == old(previewShape)
      ensures mode.IsCreation() ==> isDragging == old(isDragging)
      ensures mode.IsCreation() && old(isCreating) ==>
        AppendedOne(old(shapesList), shapesList,
                    FinalizeCreate(mode, old(createAnchor).value,
                                   CanvasPoint(event, rect, bufferWidth, bufferHeight), h).value)
        && fresh(shapesList[|old(shapesList)|])
        && !isCreating && createAnchor.None? && previewShape.None?
      ensures mode.IsCreation() && !old(isCreating) ==>
        shapesList == old(shapesList) && !isCreating && createAnchor == old(createAnchor)
        && previewShape == old(previewShape)
    {
      match mode {
        case Select =>
          if !isDragging {
            return;
          }
          isDragging := false;
        case _ =>
          if !isCreating || createAnchor.None? {
            return;
          }
          var p := CanvasPoint(event, rect, bufferWidth, bufferHeight);
          var shape := FinalizeCreate(mode, createAnchor.value, p, h);
          if shape.Some? {
            var created := new Shape(shape.value);
            AddShape(created);
          }
          isCreating := false;
          createAnchor := None;
          previewShape := None;
      }
    }

    /**
     * mouseOut: in select mode, during a drag, ends it and drops the picked
     * shape; in a creation mode cancels the gesture. No shape is added.
     */
    method MouseOut()
      requires Valid()
      modifies this
      ensures Valid() && mode == old(mode) && shapesList == old(shapesList)
      ensures startPoint == old(startPoint) && mousePosition == old(mousePosition)
      ensures mode.Select? ==>
        isCreating == old(isCreating) && createAnchor == old(createAnchor) && previewShape == old(previewShape)
        && if old(isDragging) then !isDragging && currentShape == null
           else isDragging == old(isDragging) && currentShape == old(currentShape)
      ensures mode.IsCreation() ==>
        !isCreating && createAnchor.None? && previewShape.None?
        && isDragging == old(isDragging) && currentShape == old(currentShape)
    {
      match mode {
        case Select =>
          if !isDragging {
            return;
          }
          isDragging := false;
          currentShape := null;
        case _ =>
          if !isCreating {
            return;
          }
          isCreating := false;
          createAnchor := None;
          previewShape := None;
      }
    }

    /** `addShape`: appends at the end. */
    method AddShape(shape: Shape)
      modifies this
      ensures shapesList == old(shapesList) + [shape]
      ensures mode == old(mode) && isDragging == old(isDragging) && currentShape == old(currentShape)
      ensures isCreating == old(isCreating) && createAnchor == old(createAnchor)
      ensures previewShape == old(previewShape) && startPoint == old(startPoint)
      ensures mousePosition == old(mousePosition)
    {
      shapesList := shapesList + [shape];
    }

    /** `initialiseShapesList`: replaces the list with six new seed shapes. */
    method InitialiseShapesList()
      modifies this
      ensures Figures(shapesList) == SeedFigures()
      ensures forall i :: 0 <= i < |shapesList| ==> fresh(shapesList[i])
      ensures forall i, j :: 0 <= i < j < |shapesList| ==> shapesList[i] != shapesList[j]
      ensures mode == old(mode) && isDragging == old(isDragging) && currentShape == old(currentShape)
      ensures isCreating == old(isCreating) && createAnchor == old(createAnchor)
      ensures previewShape == old(previewShape) && startPoint == old(startPoint)
      ensures mousePosition == old(mousePosition)
    {
      shapesList := NewShapes(SeedFigures());
      assert Figures(shapesList) == SeedFigures();
    }
  }
}
