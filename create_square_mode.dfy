/**
 * Square creation in the mode-based engine (src/modes/CreateSquareMode.ts):
 * press fixes the centre, moves grow a preview square centred on it whose
 * side is twice the larger offset of the pointer (at least 2), release adds
 * the last preview as a square, and leaving the canvas cancels.
 *
 * Release commits the last preview, not a square computed from the release
 * point: press and release without a move adds a square of side 0 whose
 * corner is the anchor.
 */
module CreateSquareMode {
  import opened Wrappers
  import opened Js
  import opened Geometry
  import opened Shapes
  import opened ModeContext
  import opened Creation
  import BaseMode

  class CreateSquareMode {
    const base: BaseMode.BaseMode
    var anchorPoint: Option<Point>
    var isCreating: bool
    var previewTopLeft: Option<Point>
    var previewSide: real

    /**
     * A gesture is running exactly when there is an anchor and a preview
     * corner; the preview is either the empty square at the anchor or a
     * square of side at least 2 centred on the anchor.
     */
    predicate Valid()
      reads this
    {
      (isCreating <==> anchorPoint.Some?) && (isCreating <==> previewTopLeft.Some?)
      && (!isCreating ==> previewSide == 0.0)
      && (isCreating ==>
            (previewSide == 0.0 && previewTopLeft == anchorPoint)
            || (previewSide >= 2.0 && CenteredOn(anchorPoint.value, previewSide, previewSide)
                                      == Box(previewTopLeft.value, previewSide, previewSide)))
    }

    constructor (attributes: BaseMode.Attributes)
      ensures Valid() && base.attributes == attributes
      ensures !isCreating && anchorPoint.None? && previewTopLeft.None? && previewSide == 0.0
    {
      base := new BaseMode.BaseMode(attributes);
      anchorPoint := None;
      isCreating := false;
      previewTopLeft := None;
      previewSide := 0.0;
    }

    /**
     * renderOverlay: the preview square with the preview colours; nothing
     * while no gesture is running or the side is still 0.
     */
    function Overlay(): (o: Option<Figure>)
      requires Valid()
      reads this, base.attributes
      ensures o.Some? <==> isCreating && previewSide > 0.0
      ensures o.Some? ==> o.value.Rectangle? && o.value.width == o.value.height == previewSide >= 2.0
                          && CenteredOn(anchorPoint.value, previewSide, previewSide)
                             == Box(o.value.topLeftCorner, previewSide, previewSide)
    {
      if !isCreating || previewTopLeft.None? || previewSide <= 0.0 then None
      else Some(Rectangle(previewTopLeft.value, previewSide, previewSide,
                          Style(base.PreviewFillColor(), base.PreviewStrokeColor(), base.PreviewLineWidth())))
    }

    /** mousedown: starts a gesture; the preview is the empty square at the pointer. */
    method MouseDown(ctx: Context, p: Point)
      requires Valid()
      modifies this, ctx
      ensures Valid() && anchorPoint == Some(p) && isCreating
      ensures previewTopLeft == Some(p) && previewSide == 0.0 && Overlay().None?
      ensures ctx.renderRequested
      ensures ctx.shapes == old(ctx.shapes) && ctx.cursor == old(ctx.cursor) && ctx.actions == old(ctx.actions)
    {
      anchorPoint := Some(p);
      isCreating := true;
      previewTopLeft := anchorPoint;
      previewSide := 0.0;
      ctx.RequestRender();
    }

    /** mousemove: during a gesture the preview becomes the square dragged out to the pointer. */
    method MouseMove(ctx: Context, p: Point)
      requires Valid()
      modifies this, ctx
      ensures Valid() && anchorPoint == old(anchorPoint) && isCreating == old(isCreating)
      ensures ctx.shapes == old(ctx.shapes) && ctx.cursor == old(ctx.cursor) && ctx.actions == old(ctx.actions)
      ensures if old(isCreating) then
                Box(previewTopLeft.value, previewSide, previewSide) == SquareBox(anchorPoint.value, p)
                && Overlay().Some? && ctx.renderRequested
              else
                previewTopLeft == old(previewTopLeft) && previewSide == old(previewSide)
                && ctx.renderRequested == old(ctx.renderRequested)
    {
      if !isCreating || anchorPoint.None? {
        return;
      }
      var anchor := anchorPoint.value;
      var side := SquareSide(p.x - anchor.x, p.y - anchor.y);
      previewSide := side;
      previewTopLeft := Some(Point(anchor.x - side / 2.0, anchor.y - side / 2.0));
      ctx.RequestRender();
    }

    /**
     * mouseup: during a gesture, adds the last preview as a new square with
     * the final colours (centred on the anchor, or of side 0 at the anchor
     * when the pointer never moved) and ends the gesture.
     */
    method MouseUp(ctx: Context)
      requires Valid()
      modifies this, ctx
      ensures Valid() && ctx.cursor == old(ctx.cursor) && ctx.actions == old(ctx.actions)
      ensures if old(isCreating) then
                AppendedOne(old(ctx.shapes), ctx.shapes,
                            NewSquare(old(previewTopLeft).value, old(previewSide), base.FinalFillColor(),
                                      base.FinalStrokeColor(), base.FinalLineWidth()))
                && fresh(ctx.shapes[|old(ctx.shapes)|])
                && (old(previewSide) == 0.0 || old(previewSide) >= 2.0)
                && CenteredOn(old(anchorPoint).value, old(previewSide), old(previewSide))
                   == Box(old(previewTopLeft).value, old(previewSide), old(previewSide))
                && !isCreating && anchorPoint.None? && previewTopLeft.None? && previewSide == 0.0
                && ctx.renderRequested
              else
                anchorPoint == old(anchorPoint) && isCreating == old(isCreating)
                && previewTopLeft == old(previewTopLeft) && previewSide == old(previewSide)
                && ctx.shapes == old(ctx.shapes) && ctx.renderRequested == old(ctx.renderRequested)
    {
      if !isCreating || anchorPoint.None? || previewTopLeft.None? {
        return;
      }
      var square := new Shape(NewSquare(previewTopLeft.value, previewSide, base.FinalFillColor(),
                                        base.FinalStrokeColor(), base.FinalLineWidth()));
      ctx.AddShape(square);
      isCreating := false;
      anchorPoint := None;
      previewTopLeft := None;
      previewSide := 0.0;
      ctx.RequestRender();
    }

    /** mouseout: cancels any gesture, adds nothing. */
    method MouseOut(ctx: Context)
      modifies this, ctx
      ensures Valid() && !isCreating && anchorPoint.None? && previewTopLeft.None? && previewSide == 0.0
      ensures ctx.renderRequested
      ensures ctx.shapes == old(ctx.shapes) && ctx.cursor == old(ctx.cursor) && ctx.actions == old(ctx.actions)
    {
      isCreating := false;
      anchorPoint := None;
      previewTopLeft := None;
      previewSide := 0.0;
      ctx.RequestRender();
    }

    /** onEnter: the cursor attribute, or 'crosshair'. */
    method OnEnter(ctx: Context)
      modifies ctx
      ensures ctx.cursor == base.Cursor("crosshair")
      ensures ctx.shapes == old(ctx.shapes) && ctx.renderRequested == old(ctx.renderRequested)
      ensures ctx.actions == old(ctx.actions)
    {
      ctx.SetCursor(base.Cursor("crosshair"));
    }
  }
}
