/**
 * Circle creation in the newer engine (src/canvas/modes/CreateCircleMode.ts):
 * the gesture of src/modes/CreateCircleMode.ts, and it reports the start,
 * the created circle and a cancelled gesture to the context's optional
 * action reporter.
 *
 * `Math.hypot` of the pointer's offset from the anchor is supplied by the
 * caller as `h` (see Geometry.IsHypot).
 */
module CanvasCreateCircleMode {
  import opened Wrappers
  import opened Js
  import opened Geometry
  import opened Shapes
  import opened ModeContext
  import opened Creation
  import BaseMode

  class CreateCircleMode {
    const base: BaseMode.BaseMode
    var anchorPoint: Option<Point>
    var isCreating: bool
    var previewRadius: real

    /** A gesture is in progress exactly when there is an anchor; the preview radius is 0 or at least 1. */
    predicate Valid()
      reads this
    {
      (isCreating <==> anchorPoint.Some?)
      && (previewRadius == 0.0 || previewRadius >= 1.0)
      && (!isCreating ==> previewRadius == 0.0)
    }

    constructor (attributes: BaseMode.Attributes)
      ensures Valid() && base.attributes == attributes
      ensures !isCreating && anchorPoint.None? && previewRadius == 0.0
    {
      base := new BaseMode.BaseMode(attributes);
      anchorPoint := None;
      isCreating := false;
      previewRadius := 0.0;
    }

    /**
     * renderOverlay: the preview circle drawn over the shapes, with the
     * preview colours; nothing while no gesture is running or the pointer
     * has not moved since the press.
     */
    function Overlay(): (o: Option<Figure>)
      requires Valid()
      reads this, base.attributes
      ensures o.Some? <==> isCreating && previewRadius > 0.0
      ensures o.Some? ==> o.value.Circle? && o.value.center == anchorPoint.value && o.value.radius >= 1.0
    {
      if !isCreating || anchorPoint.None? || previewRadius <= 0.0 then None
      else Some(Circle(anchorPoint.value, previewRadius,
                       Style(base.PreviewFillColor(), base.PreviewStrokeColor(), base.PreviewLineWidth())))
    }

    /** mousedown: starts a gesture at the pointer with no preview yet. */
    method MouseDown(ctx: Context, p: Point)
      requires Valid()
      modifies this, ctx
      ensures Valid() && anchorPoint == Some(p) && isCreating && previewRadius == 0.0
      ensures ctx.renderRequested
      ensures ctx.shapes == old(ctx.shapes) && ctx.cursor == old(ctx.cursor)
      ensures ctx.actions == old(ctx.actions) + (if ctx.hasReporter then [StartedCircle] else [])
    {
      anchorPoint := Some(p);
      isCreating := true;
      previewRadius := 0.0;
      ctx.ReportAction(StartedCircle);
      ctx.RequestRender();
    }

    /** mousemove: during a gesture the preview radius follows the pointer. */
    method MouseMove(ctx: Context, p: Point, h: real)
      requires Valid()
      requires anchorPoint.Some? ==> IsHypot(h, p.x - anchorPoint.value.x, p.y - anchorPoint.value.y)
      modifies this, ctx
      ensures Valid() && anchorPoint == old(anchorPoint) && isCreating == old(isCreating)
      ensures ctx.shapes == old(ctx.shapes) && ctx.cursor == old(ctx.cursor) && ctx.actions == old(ctx.actions)
      ensures if old(isCreating) then previewRadius == CircleRadius(h) && Overlay().Some? && ctx.renderRequested
              else previewRadius == old(previewRadius) && ctx.renderRequested == old(ctx.renderRequested)
    {
      if !isCreating || anchorPoint.None? {
        return;
      }
      previewRadius := CircleRadius(h);
      ctx.RequestRender();
    }

    /**
     * mouseup: during a gesture, adds a new circle centred on the anchor
     * whose radius comes from the release point, with the final colours,
     * and ends the gesture; otherwise nothing changes.
     */
    method MouseUp(ctx: Context, p: Point, h: real)
      requires Valid()
      requires anchorPoint.Some? ==> IsHypot(h, p.x - anchorPoint.value.x, p.y - anchorPoint.value.y)
      modifies this, ctx
      ensures Valid() && ctx.cursor == old(ctx.cursor)
      ensures ctx.actions == old(ctx.actions)
        + (if old(isCreating) && ctx.hasReporter then [CreatedCircle] else [])
      ensures if old(isCreating) then
                |ctx.shapes| == |old(ctx.shapes)| + 1 && ctx.shapes[..|old(ctx.shapes)|] == old(ctx.shapes)
                && fresh(ctx.shapes[|old(ctx.shapes)|])
                && NewCircle(old(anchorPoint).value, CircleRadius(h), base.FinalFillColor(),
                             base.FinalStrokeColor(), base.FinalLineWidth())
                   == Success(ctx.shapes[|old(ctx.shapes)|].figure)
                && !isCreating && anchorPoint.None? && previewRadius == 0.0 && ctx.renderRequested
              else
                anchorPoint == old(anchorPoint) && isCreating == old(isCreating) && previewRadius == old(previewRadius)
                && ctx.shapes == old(ctx.shapes) && ctx.renderRequested == old(ctx.renderRequested)
    {
      if !isCreating || anchorPoint.None? {
        return;
      }
      var radius := CircleRadius(h);
      var circle := new Shape(NewCircle(anchorPoint.value, radius, base.FinalFillColor(),
                                        base.FinalStrokeColor(), base.FinalLineWidth()).value);
      ctx.AddShape(circle);
      ctx.ReportAction(CreatedCircle);
      isCreating := false;
      anchorPoint := None;
      previewRadius := 0.0;
      ctx.RequestRender();
    }

    /** mouseout: cancels any gesture, adds nothing, and reports a cancelled gesture. */
    method MouseOut(ctx: Context)
      modifies this, ctx
      ensures Valid() && !isCreating && anchorPoint.None? && previewRadius == 0.0
      ensures ctx.renderRequested
      ensures ctx.shapes == old(ctx.shapes) && ctx.cursor == old(ctx.cursor)
      ensures ctx.actions == old(ctx.actions) + (if old(isCreating) && ctx.hasReporter then [CircleCancelled] else [])
    {
      if isCreating {
        ctx.ReportAction(CircleCancelled);
      }
      isCreating := false;
      anchorPoint := None;
      previewRadius := 0.0;
      ctx.RequestRender();
    }

    /** onEnter: the cursor attribute, or 'crosshair'. */
    method OnEnter(ctx: Context)
      modifies ctx
      ensures ctx.cursor == base.Cursor("crosshair")
      ensures ctx.shapes == old(ctx.shapes) && ctx.renderRequested == old(ctx.renderRequested)
      ensures ctx.actions == old(ctx.actions)
    {
      ctx.SetCursor(base.Cursor("crosshair"));
    }
  }
}
