/**
 * The older select-only controller (src/controller/Canvas.ts): press picks
 * the first shape that contains the point, moves drag it, release ends the
 * drag, and leaving the canvas during a drag drops the selection. Its
 * `getCanvasPoint` is the same mapping as the engine's (CanvasEngine.CanvasPoint).
 */
module Controller {
  import opened Wrappers
  import opened Js
  import opened Geometry
  import opened Shapes
  import CanvasEngine

  /** `initialiseShapesList`: the same six seeds; the fifth omits its line width. */
  function SeedFigures(): (fs: seq<Figure>)
    ensures |fs| == 6
  {
    [ NewCircle(Point(100.0, 120.0), 5.0, Str("#FF6B6B"), Str("#FF6B6B"), Num(5.0)).value,
      NewCircle(Point(220.0, 80.0), 7.0, Str("#4D96FF"), Str("#4D96FF"), Num(3.0)).value,
      NewSquare(Point(50.0, 200.0), 60.0, Str("#6BCB77"), Str("#FFD93D"), Num(3.0)),
      NewSquare(Point(140.0, 210.0), 30.0, Str("#FFD93D"), Str("#6BCB77"), Num(2.0)),
      NewRectangle(Point(220.0, 180.0), 120.0, 60.0, Str("#845EC2"), Str("#845EC2"), Undefined),
      NewRectangle(Point(380.0, 60.0), 80.0, 30.0, Str("#2C73D2"), Str("#845EC2"), Num(3.0)) ]
  }

  /**
   * The omitted line width of the fifth seed defaults to 1, so the
   * controller seeds are exactly the engine's.
   */
  lemma SeedsMatchEngine()
    ensures SeedFigures()[4].style.lineWidth == Num(1.0)
    ensures SeedFigures() == CanvasEngine.SeedFigures()
  {
  }

  class Canvas {
    var mousePosition: Point
    var shapesList: seq<Shape>
    var startPoint: Point
    var currentShape: Shape?
    var isDragging: bool
    const bufferWidth: real
    const bufferHeight: real

    /** A drag has a shape to move: this is what makes the `!` in mouseMove safe. */
    predicate Valid()
      reads this
    {
      isDragging ==> currentShape != null
    }

    constructor (bufferWidth: real, bufferHeight: real)
      ensures Valid() && this.bufferWidth == bufferWidth && this.bufferHeight == bufferHeight
      ensures !isDragging && currentShape == null
      ensures mousePosition == Point(0.0, 0.0) && startPoint == Point(0.0, 0.0)
      ensures Figures(shapesList) == SeedFigures()
      ensures forall i :: 0 <= i < |shapesList| ==> fresh(shapesList[i])
      ensures forall i, j :: 0 <= i < j < |shapesList| ==> shapesList[i] != shapesList[j]
    {
      this.bufferWidth := bufferWidth;
      this.bufferHeight := bufferHeight;
      mousePosition := Point(0.0, 0.0);
      startPoint := Point(0.0, 0.0);
      currentShape := null;
      isDragging := false;
      new;
      InitialiseShapesList();
    }

    /** mouseDown: picks the first shape in list order that contains the point, or none. */
    method MouseDown(event: CanvasEngine.MouseEvent, rect: CanvasEngine.ClientRect)
      requires rect.width != 0.0 && rect.height != 0.0
      modifies this
      ensures Valid() && shapesList == old(shapesList) && mousePosition == old(mousePosition)
      ensures var p := CanvasEngine.CanvasPoint(event, rect, bufferWidth, bufferHeight);
        startPoint == p
        && match FirstHit(Figures(shapesList), p)
           case None => !isDragging && currentShape == null
           case Some(i) => isDragging && currentShape == shapesList[i]
    {
      startPoint := CanvasEngine.CanvasPoint(event, rect, bufferWidth, bufferHeight);
      var shapes := shapesList;
      var i := 0;
      while i < |shapes|
        invariant 0 <= i <= |shapes| && shapesList == shapes && mousePosition == old(mousePosition)
        invariant startPoint == CanvasEngine.CanvasPoint(event, rect, bufferWidth, bufferHeight)
        invariant forall j :: 0 <= j < i ==> !shapes[j].figure.IsInShape(startPoint)
      {
        if shapes[i].figure.IsInShape(startPoint) {
          currentShape := shapes[i];
          isDragging := true;
          FirstHitAt(Figures(shapes), startPoint, i);
          return;
        }
        i := i + 1;
      }
      currentShape := null;
      isDragging := false;
    }

    /** mouseUp: ends a drag; the picked shape stays picked. */
    method MouseUp()
      modifies this
      ensures !isDragging && currentShape == old(currentShape) && startPoint == old(startPoint)
      ensures shapesList == old(shapesList) && mousePosition == old(mousePosition)
    {
      if !isDragging {
        return;
      }
      isDragging := false;
    }

    /** mouseOut: during a drag, ends it and drops the picked shape; otherwise nothing changes. */
    method MouseOut()
      requires Valid()
      modifies this
      ensures Valid() && !isDragging && startPoint == old(startPoint)
      ensures currentShape == if old(isDragging) then null else old(currentShape)
      ensures shapesList == old(shapesList) && mousePosition == old(mousePosition)
    {
      if !isDragging {
        return;
      }
      isDragging := false;
      currentShape := null;
    }

    /**
     * mouseMove: during a drag, records the pointer, translates the picked
     * shape by the motion since the last event and makes the pointer the
     * new start; otherwise nothing changes.
     */
    method MouseMove(event: CanvasEngine.MouseEvent, rect: CanvasEngine.ClientRect)
      requires Valid() && rect.width != 0.0 && rect.height != 0.0
      modifies this, currentShape
      ensures Valid() && isDragging == old(isDragging) && currentShape == old(currentShape)
      ensures shapesList == old(shapesList)
      ensures var p := CanvasEngine.CanvasPoint(event, rect, bufferWidth, bufferHeight);
        if old(isDragging) then
          currentShape.figure == old(currentShape.figure).UpdatedReferencePoint(
            p.x - old(startPoint).x, p.y - old(startPoint).y)
          && mousePosition == p && startPoint == p
        else
          mousePosition == old(mousePosition) && startPoint == old(startPoint)
          && (old(currentShape) != null ==> currentShape.figure == old(currentShape.figure))
    {
      if !isDragging {
        return;
      }
      mousePosition := CanvasEngine.CanvasPoint(event, rect, bufferWidth, bufferHeight);
      var distanceX := mousePosition.x - startPoint.x;
      var distanceY := mousePosition.y - startPoint.y;
      currentShape.UpdateReferencePoint(distanceX, distanceY);
      startPoint := mousePosition;
    }

    /** addShape: appends at the end; the earlier order is kept. */
    method AddShape(shape: Shape)
      modifies this
      ensures shapesList == old(shapesList) + [shape]
      ensures isDragging == old(isDragging) && currentShape == old(currentShape)
      ensures startPoint == old(startPoint) && mousePosition == old(mousePosition)
    {
      shapesList := shapesList + [shape];
    }

    /** initialiseShapesList: replaces the list with six new seed shapes. */
    method InitialiseShapesList()
      modifies this
      ensures Figures(shapesList) == SeedFigures()
      ensures forall i :: 0 <= i < |shapesList| ==> fresh(shapesList[i])
      ensures forall i, j :: 0 <= i < j < |shapesList| ==> shapesList[i] != shapesList[j]
      ensures isDragging == old(isDragging) && currentShape == old(currentShape)
      ensures startPoint == old(startPoint) && mousePosition == old(mousePosition)
    {
      shapesList := NewShapes(SeedFigures());
      assert Figures(shapesList) == SeedFigures();
    }
  }
}
