/**
 * The select mode of the newer engine (src/canvas/modes/SelectMode.ts): the
 * same gestures as src/modes/SelectMode.ts, and it reports a pick, a
 * finished drag, a cancelled drag and entering the mode to the context's
 * optional action reporter.
 */
module CanvasSelectMode {
  import opened Wrappers
  import opened Js
  import opened Geometry
  import opened Shapes
  import opened ModeContext
  import BaseMode

  class SelectMode {
    const base: BaseMode.BaseMode
    var isDragging: bool
    var dragStartPoint: Option<Point>
    var currentShape: Shape?

    /** A drag always has a shape to move. */
    predicate Valid()
      reads this
    {
      isDragging ==> currentShape != null
    }

    constructor (attributes: BaseMode.Attributes)
      ensures Valid() && base.attributes == attributes
      ensures !isDragging && dragStartPoint.None? && currentShape == null
    {
      base := new BaseMode.BaseMode(attributes);
      isDragging := false;
      dragStartPoint := None;
      currentShape := null;
    }

    /**
     * mousedown: records the start point and picks the first shape that
     * contains it, reporting the pick; with no hit nothing is picked or
     * reported.
     */
    method MouseDown(ctx: Context, p: Point)
      modifies this, ctx
      ensures Valid() && dragStartPoint == Some(p)
      ensures ctx.shapes == old(ctx.shapes) && ctx.cursor == old(ctx.cursor)
      ensures ctx.renderRequested == old(ctx.renderRequested)
      ensures match FirstHit(Figures(ctx.shapes), p)
        case None => !isDragging && currentShape == null && ctx.actions == old(ctx.actions)
        case Some(i) => isDragging && currentShape == ctx.shapes[i]
                        && ctx.actions == old(ctx.actions) + (if ctx.hasReporter then [PickedShape] else [])
    {
      dragStartPoint := Some(p);
      isDragging := false;
      currentShape := null;
      var shapes := ctx.shapes;
      var i := 0;
      while i < |shapes|
        invariant 0 <= i <= |shapes|
        invariant forall j :: 0 <= j < i ==> !shapes[j].figure.IsInShape(p)
        invariant dragStartPoint == Some(p) && !isDragging && currentShape == null
      {
        if shapes[i].figure.IsInShape(p) {
          currentShape := shapes[i];
          isDragging := true;
          ctx.ReportAction(PickedShape);
          FirstHitAt(Figures(shapes), p, i);
          break;
        }
        i := i + 1;
      }
    }

    /** mousemove: as in the older select mode. */
    method MouseMove(ctx: Context, p: Point)
      requires Valid()
      modifies this, currentShape, ctx
      ensures Valid() && currentShape == old(currentShape) && isDragging == old(isDragging)
      ensures ctx.shapes == old(ctx.shapes) && ctx.cursor == old(ctx.cursor) && ctx.actions == old(ctx.actions)
      ensures if old(isDragging) && old(currentShape) != null && old(dragStartPoint).Some? then
                currentShape.figure == old(currentShape.figure).UpdatedReferencePoint(
                  p.x - old(dragStartPoint).value.x, p.y - old(dragStartPoint).value.y)
                && dragStartPoint == Some(p) && ctx.renderRequested
              else
                dragStartPoint == old(dragStartPoint) && ctx.renderRequested == old(ctx.renderRequested)
                && (old(currentShape) != null ==> currentShape.figure == old(currentShape.figure))
    {
      if !isDragging || currentShape == null || dragStartPoint.None? {
        return;
      }
      var start := dragStartPoint.value;
      currentShape.UpdateReferencePoint(p.x - start.x, p.y - start.y);
      dragStartPoint := Some(p);
      ctx.RequestRender();
    }

    /** mouseup: ends the drag, reporting it when a shape was being dragged. */
    method MouseUp(ctx: Context)
      modifies this, ctx
      ensures Valid() && !isDragging && currentShape == old(currentShape) && dragStartPoint == old(dragStartPoint)
      ensures ctx.shapes == old(ctx.shapes) && ctx.cursor == old(ctx.cursor)
      ensures ctx.renderRequested == old(ctx.renderRequested)
      ensures ctx.actions == old(ctx.actions)
        + (if old(isDragging) && old(currentShape) != null && ctx.hasReporter then [FinishedDragging] else [])
    {
      if isDragging && currentShape != null {
        ctx.ReportAction(FinishedDragging);
      }
      isDragging := false;
    }

    /** mouseout: ends the drag and drops the picked shape, reporting a cancelled drag. */
    method MouseOut(ctx: Context)
      modifies this, ctx
      ensures Valid() && !isDragging && currentShape == null && dragStartPoint == old(dragStartPoint)
      ensures ctx.shapes == old(ctx.shapes) && ctx.cursor == old(ctx.cursor)
      ensures ctx.renderRequested == old(ctx.renderRequested)
      ensures ctx.actions == old(ctx.actions)
        + (if old(isDragging) && ctx.hasReporter then [DragCancelled] else [])
    {
      if isDragging {
        ctx.ReportAction(DragCancelled);
      }
      isDragging := false;
      currentShape := null;
    }

    /** onEnter: sets the cursor (default 'default') and reports entering the mode. */
    method OnEnter(ctx: Context)
      modifies ctx
      ensures ctx.cursor == base.Cursor("default")
      ensures ctx.shapes == old(ctx.shapes) && ctx.renderRequested == old(ctx.renderRequested)
      ensures ctx.actions == old(ctx.actions) + (if ctx.hasReporter then [EnteredSelect] else [])
    {
      ctx.SetCursor(base.Cursor("default"));
      ctx.ReportAction(EnteredSelect);
    }
  }
}
