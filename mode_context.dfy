/**
 * The capability set a mode receives (`ModeContext`, src/canvas/types.ts).
 * Its implementation is not part of this model; this class keeps exactly
 * what the modes can observe or change through it: the live shape list,
 * whether a render was requested, the cursor, and the log of reported
 * actions. `reportAction` is optional in the newer contexts: when the
 * context has no reporter, reporting does nothing.
 */
module ModeContext {
  import opened Js
  import opened Shapes

  /**
   * `EventMap`: which of the four mouse handlers a mode supplies (the
   * handlers themselves are the modes' methods).
   */
  datatype EventMap = EventMap(mousedown: bool, mousemove: bool, mouseup: bool, mouseout: bool)

  /** Which message a mode reported (the message text is not modelled). */
  datatype Action =
    | PickedShape
    | FinishedDragging
    | DragCancelled
    | EnteredSelect
    | StartedCircle
    | CreatedCircle
    | CircleCancelled
    | StartedRectangle
    | CreatedRectangle
    | RectangleCancelled

  class Context {
    var shapes: seq<Shape>
    var renderRequested: bool
    var cursor: JsValue
    var actions: seq<Action>
    const hasReporter: bool

    constructor (shapes: seq<Shape>, hasReporter: bool)
      ensures this.shapes == shapes && this.hasReporter == hasReporter
      ensures !renderRequested && cursor.Undefined? && actions == []
    {
      this.shapes := shapes;
      this.hasReporter := hasReporter;
      renderRequested := false;
      cursor := Undefined;
      actions := [];
    }

    /** `addShape`: appends and asks for a render. */
    method AddShape(shape: Shape)
      modifies this
      ensures shapes == old(shapes) + [shape]
      ensures renderRequested && cursor == old(cursor) && actions == old(actions)
    {
      shapes := shapes + [shape];
      renderRequested := true;
    }

    /** `requestRender`: marks a render as due. */
    method RequestRender()
      modifies this
      ensures renderRequested
      ensures shapes == old(shapes) && cursor == old(cursor) && actions == old(actions)
    {
      renderRequested := true;
    }

    /** `setCursor`. */
    method SetCursor(cursor: JsValue)
      modifies this
      ensures this.cursor == cursor
      ensures shapes == old(shapes) && renderRequested == old(renderRequested) && actions == old(actions)
    {
      this.cursor := cursor;
    }

    /** `reportAction?.(message)`: logs only when a reporter is present. */
    method ReportAction(action: Action)
      modifies this
      ensures actions == old(actions) + (if hasReporter then [action] else [])
      ensures shapes == old(shapes) && renderRequested == old(renderRequested) && cursor == old(cursor)
    {
      if hasReporter {
        actions := actions + [action];
      }
    }
  }
}
