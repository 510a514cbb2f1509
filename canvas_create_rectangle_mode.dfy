/**
 * Rectangle creation in the newer engine
 * (src/canvas/modes/CreateRectangleMode.ts): the gesture of
 * src/modes/CreateRectangleMode.ts, and it reports the start, the created
 * rectangle and a cancelled gesture to the context's optional reporter.
 *
 * Release commits the last preview: press and release without a move adds
 * a 0 x 0 rectangle whose corner is the anchor. Unlike the circle and
 * square modes the overlay is drawn as soon as the gesture starts, at 0 x 0.
 */
module CanvasCreateRectangleMode {
  import opened Wrappers
  import opened Js
  import opened Geometry
  import opened Shapes
  import opened ModeContext
  import opened Creation
  import BaseMode

  class CreateRectangleMode {
    const base: BaseMode.BaseMode
    var anchorPoint: Option<Point>
    var isCreating: bool
    var previewTopLeft: Option<Point>
    var previewWidth: real
    var previewHeight: real

    /**
     * A gesture is running exactly when there is an anchor and a preview
     * corner; the preview is either the empty box at the anchor or a box of
     * sides at least 2 centred on the anchor.
     */
    predicate Valid()
      reads this
    {
      (isCreating <==> anchorPoint.Some?) && (isCreating <==> previewTopLeft.Some?)
      && (!isCreating ==> previewWidth == 0.0 && previewHeight == 0.0)
      && (isCreating ==>
            (previewWidth == 0.0 && previewHeight == 0.0 && previewTopLeft == anchorPoint)
            || (previewWidth >= 2.0 && previewHeight >= 2.0
                && CenteredOn(anchorPoint.value, previewWidth, previewHeight)
                   == Box(previewTopLeft.value, previewWidth, previewHeight)))
    }

    constructor (attributes: BaseMode.Attributes)
      ensures Valid() && base.attributes == attributes
      ensures !isCreating && anchorPoint.None? && previewTopLeft.None?
      ensures previewWidth == 0.0 && previewHeight == 0.0
    {
      base := new BaseMode.BaseMode(attributes);
      anchorPoint := None;
      isCreating := false;
      previewTopLeft := None;
      previewWidth := 0.0;
      previewHeight := 0.0;
    }

    /** renderOverlay: the preview box with the preview colours, whenever a gesture is running. */
    function Overlay(): (o: Option<Figure>)
      requires Valid()
      reads this, base.attributes
      ensures o.Some? <==> isCreating
      ensures o.Some? ==> o.value.Rectangle?
                          && CenteredOn(anchorPoint.value, previewWidth, previewHeight)
                             == Box(o.value.topLeftCorner, o.value.width, o.value.height)
    {
      if !isCreating || previewTopLeft.None? then None
      else Some(Rectangle(previewTopLeft.value, previewWidth, previewHeight,
                          Style(base.PreviewFillColor(), base.PreviewStrokeColor(), base.PreviewLineWidth())))
    }

    /** mousedown: starts a gesture; the preview is the empty box at the pointer. */
    method MouseDown(ctx: Context, p: Point)
      requires Valid()
      modifies this, ctx
      ensures Valid() && anchorPoint == Some(p) && isCreating
      ensures previewTopLeft == Some(p) && previewWidth == 0.0 && previewHeight == 0.0
      ensures ctx.renderRequested
      ensures ctx.shapes == old(ctx.shapes) && ctx.cursor == old(ctx.cursor)
      ensures ctx.actions == old(ctx.actions) + (if ctx.hasReporter then [StartedRectangle] else [])
    {
      anchorPoint := Some(p);
      isCreating := true;
      previewTopLeft := anchorPoint;
      previewWidth := 0.0;
      previewHeight := 0.0;
      ctx.ReportAction(StartedRectangle);
      ctx.RequestRender();
    }

    /** mousemove: during a gesture the preview becomes the box dragged out to the pointer. */
    method MouseMove(ctx: Context, p: Point)
      requires Valid()
      modifies this, ctx
      ensures Valid() && anchorPoint == old(anchorPoint) && isCreating == old(isCreating)
      ensures ctx.shapes == old(ctx.shapes) && ctx.cursor == old(ctx.cursor) && ctx.actions == old(ctx.actions)
      ensures if old(isCreating) then
                Box(previewTopLeft.value, previewWidth, previewHeight) == RectangleBox(anchorPoint.value, p)
                && ctx.renderRequested
              else
                previewTopLeft == old(previewTopLeft) && previewWidth == old(previewWidth)
                && previewHeight == old(previewHeight) && ctx.renderRequested == old(ctx.renderRequested)
    {
      if !isCreating || anchorPoint.None? {
        return;
      }
      var anchor := anchorPoint.value;
      var width := Extent(p.x - anchor.x);
      var height := Extent(p.y - anchor.y);
      previewWidth := width;
      previewHeight := height;
      previewTopLeft := Some(Point(anchor.x - width / 2.0, anchor.y - height / 2.0));
      ctx.RequestRender();
    }

    /**
     * mouseup: during a gesture, adds the last preview as a new rectangle
     * with the final colours (centred on the anchor, or 0 x 0 at the anchor
     * when the pointer never moved) and ends the gesture.
     */
    method MouseUp(ctx: Context)
      requires Valid()
      modifies this, ctx
      ensures Valid() && ctx.cursor == old(ctx.cursor)
      ensures ctx.actions == old(ctx.actions)
        + (if old(isCreating) && ctx.hasReporter then [CreatedRectangle] else [])
      ensures if old(isCreating) then
                AppendedOne(old(ctx.shapes), ctx.shapes,
                            NewRectangle(old(previewTopLeft).value, old(previewWidth), old(previewHeight),
                                         base.FinalFillColor(), base.FinalStrokeColor(), base.FinalLineWidth()))
                && fresh(ctx.shapes[|old(ctx.shapes)|])
                && CenteredOn(old(anchorPoint).value, old(previewWidth), old(previewHeight))
                   == Box(old(previewTopLeft).value, old(previewWidth), old(previewHeight))
                && !isCreating && anchorPoint.None? && previewTopLeft.None?
                && previewWidth == 0.0 && previewHeight == 0.0 && ctx.renderRequested
              else
                anchorPoint == old(anchorPoint) && isCreating == old(isCreating)
                && previewTopLeft == old(previewTopLeft) && previewWidth == old(previewWidth)
                && previewHeight == old(previewHeight)
                && ctx.shapes == old(ctx.shapes) && ctx.renderRequested == old(ctx.renderRequested)
    {
      if !isCreating || previewTopLeft.None? {
        return;
      }
      var rectangle := new Shape(NewRectangle(previewTopLeft.value, previewWidth, previewHeight,
                                              base.FinalFillColor(), base.FinalStrokeColor(), base.FinalLineWidth()));
      ctx.AddShape(rectangle);
      ctx.ReportAction(CreatedRectangle);
      isCreating := false;
      anchorPoint := None;
      previewTopLeft := None;
      previewWidth := 0.0;
      previewHeight := 0.0;
      ctx.RequestRender();
    }

    /** mouseout: cancels any gesture, adds nothing, and reports a cancelled gesture. */
    method MouseOut(ctx: Context)
      modifies this, ctx
      ensures Valid() && !isCreating && anchorPoint.None? && previewTopLeft.None?
      ensures previewWidth == 0.0 && previewHeight == 0.0 && ctx.renderRequested
      ensures ctx.shapes == old(ctx.shapes) && ctx.cursor == old(ctx.cursor)
      ensures ctx.actions == old(ctx.actions)
        + (if old(isCreating) && ctx.hasReporter then [RectangleCancelled] else [])
    {
      if isCreating {
        ctx.ReportAction(RectangleCancelled);
      }
      isCreating := false;
      anchorPoint := None;
      previewTopLeft := None;
      previewWidth := 0.0;
      previewHeight := 0.0;
      ctx.RequestRender();
    }

    /** onEnter: the cursor attribute, or 'crosshair'. */
    method OnEnter(ctx: Context)
      modifies ctx
      ensures ctx.cursor == base.Cursor("crosshair")
      ensures ctx.shapes == old(ctx.shapes) && ctx.renderRequested == old(ctx.renderRequested)
      ensures ctx.actions == old(ctx.actions)
    {
      ctx.SetCursor(base.Cursor("crosshair"));
    }
  }
}
