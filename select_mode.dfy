/**
 * The select mode of the mode-based engine (src/modes/SelectMode.ts): press
 * on a shape picks the first one in list order that the point hits, moves
 * translate it by the pointer's motion, release ends the drag and leaving
 * the canvas drops the selection.
 */
module SelectMode {
  import opened Wrappers
  import opened Js
  import opened Geometry
  import opened Shapes
  import opened ModeContext
  import BaseMode

  class SelectMode {
    const base: BaseMode.BaseMode
    var isDragging: bool
    var dragStartPoint: Option<Point>
    var currentShape: Shape?

    /** A drag always has a shape to move. */
    predicate Valid()
      reads this
    {
      isDragging ==> currentShape != null
    }

    constructor (attributes: BaseMode.Attributes)
      ensures Valid() && base.attributes == attributes
      ensures !isDragging && dragStartPoint.None? && currentShape == null
    {
      base := new BaseMode.BaseMode(attributes);
      isDragging := false;
      dragStartPoint := None;
      currentShape := null;
    }

    /**
     * mousedown: records the start point, then picks the first shape that
     * contains it; with no hit nothing is picked.
     */
    method MouseDown(ctx: Context, p: Point)
      modifies this
      ensures Valid() && dragStartPoint == Some(p)
      ensures match FirstHit(Figures(ctx.shapes), p)
        case None => !isDragging && currentShape == null
        case Some(i) => isDragging && currentShape == ctx.shapes[i]
    {
      dragStartPoint := Some(p);
      isDragging := false;
      currentShape := null;
      var shapes := ctx.shapes;
      var i := 0;
      while i < |shapes|
        invariant 0 <= i <= |shapes|
        invariant forall j :: 0 <= j < i ==> !shapes[j].figure.IsInShape(p)
        invariant dragStartPoint == Some(p) && !isDragging && currentShape == null
      {
        if shapes[i].figure.IsInShape(p) {
          currentShape := shapes[i];
          isDragging := true;
          FirstHitAt(Figures(shapes), p, i);
          break;
        }
        i := i + 1;
      }
    }

    /**
     * mousemove: while dragging, translates the picked shape by the motion
     * since the last event, makes the pointer the new start and asks for a
     * render; otherwise nothing changes.
     */
    method MouseMove(ctx: Context, p: Point)
      requires Valid()
      modifies this, currentShape, ctx
      ensures Valid() && currentShape == old(currentShape) && isDragging == old(isDragging)
      ensures ctx.shapes == old(ctx.shapes) && ctx.cursor == old(ctx.cursor) && ctx.actions == old(ctx.actions)
      ensures if old(isDragging) && old(currentShape) != null && old(dragStartPoint).Some? then
                currentShape.figure == old(currentShape.figure).UpdatedReferencePoint(
                  p.x - old(dragStartPoint).value.x, p.y - old(dragStartPoint).value.y)
                && dragStartPoint == Some(p) && ctx.renderRequested
              else
                dragStartPoint == old(dragStartPoint) && ctx.renderRequested == old(ctx.renderRequested)
                && (old(currentShape) != null ==> currentShape.figure == old(currentShape.figure))
    {
      if !isDragging || currentShape == null || dragStartPoint.None? {
        return;
      }
      var start := dragStartPoint.value;
      currentShape.UpdateReferencePoint(p.x - start.x, p.y - start.y);
      dragStartPoint := Some(p);
      ctx.RequestRender();
    }

    /** mouseup: ends the drag; the picked shape stays picked. */
    method MouseUp(ctx: Context)
      modifies this
      ensures Valid() && !isDragging && currentShape == old(currentShape) && dragStartPoint == old(dragStartPoint)
    {
      isDragging := false;
    }

    /** mouseout: ends the drag and drops the picked shape. */
    method MouseOut(ctx: Context)
      modifies this
      ensures Valid() && !isDragging && currentShape == null && dragStartPoint == old(dragStartPoint)
    {
      isDragging := false;
      currentShape := null;
    }

    /** onEnter: the cursor attribute, or 'default' when it is undefined or null. */
    method OnEnter(ctx: Context)
      modifies ctx
      ensures ctx.cursor == base.Cursor("default")
      ensures ctx.shapes == old(ctx.shapes) && ctx.renderRequested == old(ctx.renderRequested)
      ensures ctx.actions == old(ctx.actions)
    {
      ctx.SetCursor(base.Cursor("default"));
    }
  }
}
