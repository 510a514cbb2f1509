# CanvasProjectTS interaction engine in Dafny

This project models the interaction engine of CanvasProjectTS, a small
browser drawing app written in TypeScript, and proves properties of that
model. The app draws circles, squares and rectangles on an HTML canvas. In
select mode the user drags shapes; in the three creation modes the user
drags out new shapes.

What is modelled:

- **Geometry** (`geometry.dfy`): points, `between` (a range test with a
  tolerance of 2 on each side), and `Math.hypot` as an oracle. The oracle is
  a value `h` with `h >= 0` and `h*h == dx*dx + dy*dy`. It is supplied by the
  caller of every operation that needs it.
- **Shapes** (`shapes.dfy`): the value `Figure` (a circle or a rectangle,
  with its style) and the object `Shape` that the shape list and the modes
  refer to. A square is a rectangle whose width equals its height, as
  `Square extends Rectangle` makes it. Also here:
  - the constructors, including the circle's radius check and the default
    line width;
  - the hit tests;
  - the in-place translation;
  - "the first shape in list order that the point hits".
- **Shape factory** (`shape_factory.dfy`): `createShape` and its `DEFAULTS`.
  `??` is modelled on JavaScript values (`js.dfy`).
- **Base mode** (`base_mode.dfy`): an attributes object shared by
  reference, and `updateAttributes`, which merges a patch into it in place
  (`Object.assign`).
- **Mode context** (`mode_context.dfy`): the services a mode's handlers
  call: the shape list, `addShape`, `requestRender`, `setCursor`, and the
  optional `reportAction` log.
- **Pointer-event state machines**, one class per mode object. The pointer
  point is an argument to each handler; circle handlers also take the hypot
  of the pointer's offset from the anchor.
  - `src/modes/*`: `select_mode.dfy`, `create_circle_mode.dfy`,
    `create_square_mode.dfy`, `create_rectangle_mode.dfy`.
  - `src/canvas/modes/*`, which add `reportAction`:
    `canvas_select_mode.dfy`, `canvas_create_circle_mode.dfy`,
    `canvas_create_rectangle_mode.dfy`.
  - The centred-growth formulas with their floors are shared, in
    `creation.dfy`.
- **Event dispatcher** (`event_dispatcher.dfy`): `attach` and `detach`.
  They keep `boundListeners` consistent with a modelled set of listener
  registrations on the canvas element, so nothing is left behind.
- **Monolithic canvas** (`canvas_engine.dfy`): `src/canvas/Canvas.ts`, a
  single object that switches on a string mode. It covers
  `getCanvasPoint`, `#makePreviewForMode`, `#finalizeCreate`, the four mouse
  handlers, `setMode`, `addShape` and `initialiseShapesList`.
- **Old controller** (`controller_canvas.dfy`): the select-only
  `src/controller/Canvas.ts`.
- **UI logic**:
  - `style_controls.dfy`: `hexToRgba` and the style patch. It includes
    `parseInt` on leading digits and the 32-bit masking of `>>` and `&`.
  - `toolbar.dfy`: `isToolName`, the key shortcuts, `setActive` and
    `destroy`.
  - `app.dfy`: `mapToolToMode`, and the toolbar callback that keeps the
    canvas mode in step with the tool.

Where the code and its description differ, the model follows the code.

- The select cursor falls back to `'default'`, not to a pointer cursor.
- `CreateRectangleMode` and `CreateSquareMode` commit their *last preview*
  on release, not a shape recomputed from the release point. A press and
  release with no move between them therefore commits a 0-size shape at
  the anchor. The circle modes and `src/canvas/Canvas.ts` recompute from
  the release point, and apply the floors.
- In `src/canvas/Canvas.ts` and `src/controller/Canvas.ts`, `mouseOut`
  clears `currentShape` only while a drag is in progress (it returns early
  otherwise). The mode objects always clear it.
- `finalLineWidth` is `NaN` when, after optional leading white space and a
  sign, the line-width field has no digit, because `Math.max(1, NaN)` is
  `NaN`. It is 1 for an empty field, and at least 1 whenever it is a number.
- `hex.replace('#', '')` removes only the first `'#'`, so `'##abcdef'`
  parses as NaN and gives black.

Some files are imported by the source but are not part of this model:

- `src/canvas/modes/BaseMode`, `src/canvas/CanvasMode` and the
  `CommonCreateAttributes` type.
- The `reportAction` member that the newer modes destructure from
  `ModeContext`.

The newer modes are modelled on the same base mode and context as the
older ones, plus an optional action log.

## Model

| member | source | states |
|---|---|---|
| Geometry.Min | src/utils/geometry.ts:2 | `Math.min` is a lower bound of both arguments and equals one of them |
| Geometry.Max | src/utils/geometry.ts:2 | `Math.max` is an upper bound of both arguments and equals one of them |
| Geometry.Abs | src/modes/CreateRectangleMode.ts:43-50 | `Math.abs` is non-negative and is the argument or its negation |
| Geometry.Between | src/utils/geometry.ts:1-2 | every value between the two bounds is accepted, and a value more than 2 beyond either bound is rejected |
| Geometry.BetweenSymmetric | src/utils/geometry.ts:1-2 | swapping the two bounds of `between` never changes the answer |
| Geometry.BetweenIsWidenedRange | src/utils/geometry.ts:1-2 | `between(v,a,b)` holds iff `min(a,b)-2 <= v <= max(a,b)+2` |
| Geometry.BetweenBoundaries | src/utils/geometry.ts:1-2 | every value in `[min,max]` is accepted, `min-2` and `max+2` are accepted, anything further out is rejected |
| Geometry.BetweenShift | src/utils/geometry.ts:1-2 | shifting the value and both bounds by the same amount leaves `between` unchanged |
| Geometry.HypotUnique | src/shapes/Circle.ts:16-19 | the hypot oracle admits exactly one value for a given delta |
| Geometry.HypotZero | src/shapes/Circle.ts:16-19 | the hypot of a zero delta is 0, and only a zero hypot fits a zero delta |
| Shapes.Figure.UpdatedReferencePoint | src/shapes/Rectangle.ts:50-53 | translation moves the reference point by the delta and keeps kind, extents, radius and style |
| Shapes.Figure.IsInShape | src/shapes/Rectangle.ts:15-26 | every point of a closed rectangle hits it, and the centre of a circle with a non-negative radius hits it (the circle test is at src/shapes/Circle.ts:15-21) |
| Shapes.CircleHitMatchesHypot | src/shapes/Circle.ts:15-21 | the squared-distance hit test agrees with `hypot(p - center) - radius <= 2` for the oracle's value |
| Shapes.NewCircle | src/shapes/Circle.ts:5-13 | the constructor fails with "Radius must be >= 0" exactly for a negative radius, and otherwise stores its arguments, with line width 1 when it is omitted |
| Shapes.NewRectangle | src/shapes/Rectangle.ts:5-13 | the rectangle stores corner, sizes and colours unchanged, accepts any size, and defaults only an omitted line width to 1 |
| Shapes.RectangleHitTest | src/shapes/Rectangle.ts:15-26 | a rectangle is hit iff `between` holds on y over `[top, top+height]` and on x over `[left, left+width]` |
| Shapes.RectangleHitRegion | src/shapes/Rectangle.ts:15-26 | every point of the closed rectangle hits, and a point more than 2 outside either axis range misses |
| Shapes.NewSquare | src/shapes/Square.ts:5-13 | a new square has width and height both equal to side, and the corner and style pass through unchanged |
| Shapes.SquareStaysSquare | src/shapes/Square.ts:12 | the inherited translation keeps width equal to height |
| Shapes.SquareHitTest | src/shapes/Square.ts:12 | a square's hit test is the rectangle test with both extents equal to side |
| Shapes.CircleConstructorBoundary | src/shapes/Circle.ts:11-13 | radius 0 is accepted, and every negative radius raises the error |
| Shapes.CircleHitTest | src/shapes/Circle.ts:15-21 | a circle is hit iff the hypot of the offset minus the radius is at most 2 |
| Shapes.CircleCentreHits | src/shapes/Circle.ts:15-21 | the centre of a circle with non-negative radius always hits |
| Shapes.TranslationComposes | src/shapes/Rectangle.ts:50-53 | two translations equal one by the summed delta, and translation by (0,0) is the identity |
| Shapes.TranslationPreservesHits | src/shapes/Circle.ts:15-48 | after translating by d, `p + d` hits exactly when `p` hit before, for circles and rectangles |
| Shapes.DragAlongTotal | src/modes/SelectMode.ts:46-54 | a drag through the points p1..pn moves the shape by pn - p0 in total |
| Shapes.Shape.UpdateReferencePoint | src/shapes/Circle.ts:45-48 | the shape object's state becomes the translated figure; nothing else changes |
| Shapes.FirstHit | src/canvas/modes/SelectMode.ts:32-41 | the result is None iff no shape is hit; otherwise it is the index of a hit shape with no hit before it |
| ShapeFactory.CreateShape | src/factory/shapeFactory.ts:18-58 | the call fails exactly for an unknown kind or a circle with a negative radius; a circle option gives a circle and only a circle option does; a square option gives width = height = side |
| ShapeFactory.CreateCircle | src/factory/shapeFactory.ts:20-28 | a circle option gives a circle with the given centre and radius and the resolved style; a negative radius gives the constructor's error |
| ShapeFactory.CreateRectangle | src/factory/shapeFactory.ts:31-40 | a rectangle option gives a rectangle with the given corner, width and height |
| ShapeFactory.CreateSquare | src/factory/shapeFactory.ts:43-51 | a square option gives a rectangle whose width and height both equal side |
| ShapeFactory.OmittedStyleDefaults | src/factory/shapeFactory.ts:12-16 | omitted style fields become fill undefined, line `#111827` and width 1 |
| ShapeFactory.SuppliedStyleWins | src/factory/shapeFactory.ts:25-27 | a supplied field other than undefined or null overrides its default, and a null line colour falls back to the default |
| ShapeFactory.CreateOtherKind | src/factory/shapeFactory.ts:54-57 | any other kind raises "Unsupported shape kind" |
| Js.Coalesce | src/factory/shapeFactory.ts:25 | `??` replaces undefined and null, and keeps every other value |
| Js.DefaultParam | src/shapes/Rectangle.ts:12 | a default parameter replaces only undefined, so an explicit null is kept |
| BaseMode.Merge | src/modes/BaseMode.ts:24-26 | after the merge, the keys are the union; every patch key holds the patch's value (undefined included) and every other key keeps its value |
| BaseMode.MergeEmpty | src/modes/BaseMode.ts:25 | an empty patch changes nothing |
| BaseMode.MergeIdempotent | src/modes/BaseMode.ts:25 | applying the same patch twice equals applying it once |
| BaseMode.MergeLookup | src/modes/BaseMode.ts:24-26 | reading any key after the merge gives the patch's value if the patch has the key, else the old value |
| BaseMode.BaseMode.constructor | src/modes/BaseMode.ts:13-15 | the mode keeps the given attributes object itself, not a copy |
| BaseMode.BaseMode.UpdateAttributes | src/modes/BaseMode.ts:24-26 | the shared attributes object becomes the merge of its old fields and the patch, in place |
| BaseMode.BaseMode.Cursor | src/modes/SelectMode.ts:69 | the entry cursor is `attributes.cursor`, or the mode's fallback when it is undefined or null |
| Creation.CircleRadius | src/modes/CreateCircleMode.ts:40 | `max(1, hypot)` is at least 1 and at least the hypot, and is one of the two |
| Creation.Extent | src/modes/CreateRectangleMode.ts:43-50 | `max(2, 2|d|)` is at least 2 and at least 2|d|, and is one of the two |
| Creation.SquareSide | src/modes/CreateSquareMode.ts:40-46 | `max(2, 2 max(|dx|,|dy|))` is at least 2 and at least twice each offset, and is one of these |
| Creation.CenteredOn | src/modes/CreateSquareMode.ts:48-51 | the box has the given extents and its centre is the anchor: `topLeft + (w/2, h/2) == anchor` |
| Creation.BoxesCentredWithFloor | src/modes/CreateRectangleMode.ts:39-58 | the rectangle and square dragged from an anchor are centred on it, with every extent at least 2 |
| Creation.PointerInsideBox | src/modes/CreateSquareMode.ts:37-53 | the pointer always lies inside the closed box it drags out |
| Creation.ZeroMovementFloors | src/canvas/Canvas.ts:226-239 | with no movement the radius is 1, and the square and rectangle are 2×2 boxes centred on the anchor |
| Creation.RectangleAxisFloor | src/canvas/modes/CreateRectangleMode.ts:46-49 | no movement on one axis still gives extent 2 on that axis |
| Creation.SquareSideBeyondFloor | src/modes/CreateSquareMode.ts:40-46 | beyond the floor, the square's side is twice the larger offset |
| Creation.RectangleExample | src/canvas/modes/CreateRectangleMode.ts:38-57 | dragging from (50,50) to (70,80) previews a 40×60 box with top-left (30,20) |
| ModeContext.Context.constructor | src/canvas/types.ts:18-29 | a context starts with the given shapes, no render request, no cursor and an empty action log |
| ModeContext.Context.AddShape | src/canvas/types.ts:22 | `addShape` appends at the end and requests a render |
| ModeContext.Context.RequestRender | src/canvas/types.ts:24 | only the render request changes |
| ModeContext.Context.SetCursor | src/canvas/types.ts:28 | only the cursor changes |
| ModeContext.Context.ReportAction | src/canvas/modes/SelectMode.ts:36-38 | `reportAction?.()` logs one entry when a reporter is present, and otherwise does nothing |
| SelectMode.SelectMode.constructor | src/modes/SelectMode.ts:11-14 | a new select mode is idle, with no start point and no shape |
| SelectMode.SelectMode.MouseDown | src/modes/SelectMode.ts:21-36 | the start point becomes p; the first shape in list order that p hits becomes current and dragging starts, and with no hit nothing is current and there is no drag |
| SelectMode.SelectMode.MouseMove | src/modes/SelectMode.ts:38-55 | while dragging, only the current shape moves, by p - start, and the start becomes p; otherwise nothing changes; the list is never changed |
| SelectMode.SelectMode.MouseUp | src/modes/SelectMode.ts:57-59 | only the drag flag is cleared; the current shape is kept |
| SelectMode.SelectMode.MouseOut | src/modes/SelectMode.ts:61-64 | both the drag flag and the current shape are cleared |
| SelectMode.SelectMode.OnEnter | src/modes/SelectMode.ts:68-70 | the cursor becomes `attributes.cursor ?? 'default'` |
| CanvasSelectMode.SelectMode.constructor | src/canvas/modes/SelectMode.ts:11-14 | a new select mode is idle, with no start point and no shape |
| CanvasSelectMode.SelectMode.MouseDown | src/canvas/modes/SelectMode.ts:25-42 | picks the first hit as in the older mode, and logs one pick entry exactly when a shape is hit |
| CanvasSelectMode.SelectMode.MouseMove | src/canvas/modes/SelectMode.ts:44-61 | while dragging, only the current shape moves, by p - start, and the start becomes p; otherwise nothing changes |
| CanvasSelectMode.SelectMode.MouseUp | src/canvas/modes/SelectMode.ts:63-68 | clears only the drag flag, logging "finished" iff a drag with a shape was in progress |
| CanvasSelectMode.SelectMode.MouseOut | src/canvas/modes/SelectMode.ts:70-76 | clears the drag flag and the shape, logging "cancelled" iff a drag was in progress |
| CanvasSelectMode.SelectMode.OnEnter | src/canvas/modes/SelectMode.ts:80-83 | the cursor becomes `attributes.cursor ?? 'default'`, and an entry is logged |
| CreateCircleMode.CreateCircleMode.constructor | src/modes/CreateCircleMode.ts:19-22 | a new mode is idle, with no anchor and radius 0 |
| CreateCircleMode.CreateCircleMode.Overlay | src/modes/CreateCircleMode.ts:75-77 | the overlay is drawn iff creating with radius > 0; it is a circle at the anchor with radius at least 1 |
| CreateCircleMode.CreateCircleMode.MouseDown | src/modes/CreateCircleMode.ts:28-33 | the anchor becomes p, creating starts, the radius is 0 and a render is requested |
| CreateCircleMode.CreateCircleMode.MouseMove | src/modes/CreateCircleMode.ts:35-42 | while creating, the preview radius becomes `max(1, hypot(p - anchor))`; otherwise nothing changes |
| CreateCircleMode.CreateCircleMode.MouseUp | src/modes/CreateCircleMode.ts:44-64 | while creating, exactly one new circle is appended: centred on the anchor, radius `max(1, hypot)` of the release point (so the constructor cannot fail), final style; then the state is reset; otherwise nothing changes |
| CreateCircleMode.CreateCircleMode.MouseOut | src/modes/CreateCircleMode.ts:66-71 | always resets, never adds a shape |
| CreateCircleMode.CreateCircleMode.OnEnter | src/modes/CreateCircleMode.ts:99-101 | the cursor becomes `attributes.cursor ?? 'crosshair'` |
| CanvasCreateCircleMode.CreateCircleMode.constructor | src/canvas/modes/CreateCircleMode.ts:10-13 | a new mode is idle, with no anchor and radius 0 |
| CanvasCreateCircleMode.CreateCircleMode.Overlay | src/canvas/modes/CreateCircleMode.ts:80-82 | the overlay is drawn iff creating with radius > 0 |
| CanvasCreateCircleMode.CreateCircleMode.MouseDown | src/canvas/modes/CreateCircleMode.ts:24-32 | starts a gesture at p and logs a start entry |
| CanvasCreateCircleMode.CreateCircleMode.MouseMove | src/canvas/modes/CreateCircleMode.ts:34-41 | while creating, the preview radius becomes `max(1, hypot)`; otherwise nothing changes |
| CanvasCreateCircleMode.CreateCircleMode.MouseUp | src/canvas/modes/CreateCircleMode.ts:43-67 | while creating, appends exactly one circle from the release point, logs a creation entry, then resets; otherwise nothing changes |
| CanvasCreateCircleMode.CreateCircleMode.MouseOut | src/canvas/modes/CreateCircleMode.ts:69-76 | always resets, never adds a shape, and logs a cancellation iff a gesture was in progress |
| CanvasCreateCircleMode.CreateCircleMode.OnEnter | src/canvas/modes/CreateCircleMode.ts:104-106 | the cursor becomes `attributes.cursor ?? 'crosshair'` |
| CreateSquareMode.CreateSquareMode.constructor | src/modes/CreateSquareMode.ts:19-23 | a new mode is idle, with no anchor, no preview corner and side 0 |
| CreateSquareMode.CreateSquareMode.Overlay | src/modes/CreateSquareMode.ts:88-90 | the overlay is drawn iff creating with side > 0 |
| CreateSquareMode.CreateSquareMode.MouseDown | src/modes/CreateSquareMode.ts:29-35 | the anchor and preview corner become p, creating starts, and the side is 0 |
| CreateSquareMode.CreateSquareMode.MouseMove | src/modes/CreateSquareMode.ts:37-53 | while creating, the preview becomes the square of side `max(2, 2 max(|dx|,|dy|))` centred on the anchor |
| CreateSquareMode.CreateSquareMode.MouseUp | src/modes/CreateSquareMode.ts:55-76 | when creating with an anchor and a corner, appends exactly one square built from the stored preview corner and side (which may be 0) with the final style, still centred on the anchor, then resets |
| CreateSquareMode.CreateSquareMode.MouseOut | src/modes/CreateSquareMode.ts:78-84 | always resets, never adds a shape |
| CreateSquareMode.CreateSquareMode.OnEnter | src/modes/CreateSquareMode.ts:117-119 | the cursor becomes `attributes.cursor ?? 'crosshair'` |
| CreateRectangleMode.CreateRectangleMode.constructor | src/modes/CreateRectangleMode.ts:19-24 | a new mode is idle, with no anchor, no preview corner and a 0×0 preview |
| CreateRectangleMode.CreateRectangleMode.Overlay | src/modes/CreateRectangleMode.ts:96-97 | the overlay is drawn iff creating, even at 0×0 |
| CreateRectangleMode.CreateRectangleMode.MouseDown | src/modes/CreateRectangleMode.ts:30-37 | the anchor and preview corner become p, creating starts, and the preview is 0×0 |
| CreateRectangleMode.CreateRectangleMode.MouseMove | src/modes/CreateRectangleMode.ts:39-59 | while creating, the preview becomes `max(2, 2|dx|)` × `max(2, 2|dy|)` centred on the anchor |
| CreateRectangleMode.CreateRectangleMode.MouseUp | src/modes/CreateRectangleMode.ts:61-83 | while creating, appends exactly one rectangle from the stored preview (0×0 after a press with no move) with the final style, then resets; otherwise nothing changes |
| CreateRectangleMode.CreateRectangleMode.MouseOut | src/modes/CreateRectangleMode.ts:85-92 | always resets, never adds a shape |
| CreateRectangleMode.CreateRectangleMode.OnEnter | src/modes/CreateRectangleMode.ts:124-126 | the cursor becomes `attributes.cursor ?? 'crosshair'` |
| CanvasCreateRectangleMode.CreateRectangleMode.constructor | src/canvas/modes/CreateRectangleMode.ts:10-15 | a new mode is idle, with no anchor, no preview corner and a 0×0 preview |
| CanvasCreateRectangleMode.CreateRectangleMode.Overlay | src/canvas/modes/CreateRectangleMode.ts:99-100 | the overlay is drawn iff creating |
| CanvasCreateRectangleMode.CreateRectangleMode.MouseDown | src/canvas/modes/CreateRectangleMode.ts:26-36 | starts a 0×0 preview at p and logs a start entry |
| CanvasCreateRectangleMode.CreateRectangleMode.MouseMove | src/canvas/modes/CreateRectangleMode.ts:38-58 | while creating, the preview becomes the centred box with the floors |
| CanvasCreateRectangleMode.CreateRectangleMode.MouseUp | src/canvas/modes/CreateRectangleMode.ts:60-84 | while creating, appends exactly one rectangle from the stored preview, logs a creation entry, then resets |
| CanvasCreateRectangleMode.CreateRectangleMode.MouseOut | src/canvas/modes/CreateRectangleMode.ts:86-95 | always resets, never adds a shape, and logs a cancellation iff creating |
| CanvasCreateRectangleMode.CreateRectangleMode.OnEnter | src/canvas/modes/CreateRectangleMode.ts:127-129 | the cursor becomes `attributes.cursor ?? 'crosshair'` |
| EventDispatcher.Registrations | src/canvas/events/EventDispatcher.ts:21-22 | a record of bound listeners stands for exactly one registration per recorded event type |
| EventDispatcher.RegistrationsAdd | src/canvas/events/EventDispatcher.ts:21-22 | recording a new event type adds exactly its one registration |
| EventDispatcher.RegistrationsRemove | src/canvas/events/EventDispatcher.ts:32-37 | forgetting one event type removes exactly its registration |
| EventDispatcher.RegistrationsEmpty | src/canvas/events/EventDispatcher.ts:38 | an empty record stands for no registration, so a second detach removes nothing |
| EventDispatcher.AttachTwice | src/canvas/events/EventDispatcher.ts:11-28 | attaching twice in a row leaves what attaching the second map alone would have left |
| EventDispatcher.CanvasElement.AddEventListener | src/canvas/events/EventDispatcher.ts:22 | `addEventListener` adds the one (type, listener) registration and keeps all others |
| EventDispatcher.CanvasElement.RemoveEventListener | src/canvas/events/EventDispatcher.ts:36 | `removeEventListener` removes the one (type, listener) registration and keeps all others |
| EventDispatcher.EventDispatcher.constructor | src/canvas/events/EventDispatcher.ts:7-9 | a new dispatcher has no bound listeners and leaves the element as it is |
| EventDispatcher.EventDispatcher.Detach | src/canvas/events/EventDispatcher.ts:31-39 | every recorded registration is removed from the element, and no other; the record is emptied, and none of the dispatcher's listeners remains |
| EventDispatcher.EventDispatcher.Bind | src/canvas/events/EventDispatcher.ts:14-23 | a present handler gets one new listener, recorded and registered; an absent one is skipped |
| EventDispatcher.EventDispatcher.BindAll | src/canvas/events/EventDispatcher.ts:25-28 | exactly the present handlers get new listeners |
| EventDispatcher.EventDispatcher.Attach | src/canvas/events/EventDispatcher.ts:11-29 | the element keeps its foreign registrations, loses the old ones and gains exactly one new registration per present handler; the record's keys are exactly the present types |
| CanvasEngine.ModeNamesDistinct | src/canvas/Canvas.ts:66-83 | the four mode strings are distinct |
| CanvasEngine.CanvasPoint | src/canvas/Canvas.ts:51-60 | the element's on-screen box maps onto the buffer: its top-left corner goes to (0,0) and its bottom-right corner to (buffer width, buffer height) |
| CanvasEngine.MakePreviewForMode | src/canvas/Canvas.ts:178-215 | there is a preview exactly in the creation modes: a circle at the anchor with radius at least 1, a square with equal sides of at least 2, or a rectangle with both extents at least 2, all at line width 2 |
| CanvasEngine.FinalizeCreate | src/canvas/Canvas.ts:217-244 | a shape is committed exactly in the creation modes, a circle exactly in circle mode, always at line width 3 |
| CanvasEngine.CanvasPointInverse | src/canvas/Canvas.ts:51-60 | the canvas point maps back to the event's client position, so it is `(client - rect corner) * buffer / rect` on each axis |
| CanvasEngine.CanvasPointUnscaled | src/canvas/Canvas.ts:51-60 | when the buffer size equals the on-screen size, the point is the offset from the element's corner |
| CanvasEngine.FinalizeGeometry | src/canvas/Canvas.ts:217-244 | the committed circle is at the anchor with radius `max(1, hypot)`; the square has side `max(2, 2 max(|dx|,|dy|))`; the rectangle is `max(2, 2|dx|)` × `max(2, 2|dy|)`; both are centred on the anchor; the styles are fill/stroke `#4D96FF`/`#4D96FF`, `#FFD93D`/`#6BCB77` and `#845EC2`/`#845EC2`, each at line width 3 |
| CanvasEngine.PreviewMatchesFinal | src/canvas/Canvas.ts:178-215 | preview and committed shape have the same geometry; only the style differs |
| CanvasEngine.FinalizeZeroMovement | src/canvas/Canvas.ts:226-239 | with no movement the commit is a radius-1 circle, a side-2 square or a 2×2 rectangle |
| CanvasEngine.SeedFigures | src/canvas/Canvas.ts:267-274 | there are six seed shapes |
| CanvasEngine.SeedsShape | src/canvas/Canvas.ts:267-274 | the seeds are two circles, two squares and two rectangles, and each seed's reference point hits it |
| CanvasEngine.Canvas.constructor | src/canvas/Canvas.ts:25-30 | the canvas starts in select mode, idle, holding six new distinct seed shapes |
| CanvasEngine.Canvas.SetMode | src/canvas/Canvas.ts:32-38 | switches mode and abandons any creation; the drag fields and the shape list are untouched |
| CanvasEngine.Canvas.MouseDown | src/canvas/Canvas.ts:62-91 | in select mode the first hit in list order becomes current, with dragging iff there is one; in a creation mode the anchor and a zero-movement preview are set |
| CanvasEngine.Canvas.MouseMove | src/canvas/Canvas.ts:93-124 | in select mode while dragging, only the current shape moves, by p - start, and the start becomes p; in a creation mode while creating, the preview is recomputed; otherwise nothing changes |
| CanvasEngine.Canvas.MouseUp | src/canvas/Canvas.ts:126-152 | in select mode only the drag flag is cleared; in a creation mode while creating, exactly `#finalizeCreate(mode, anchor, release)` is appended, then the gesture is reset |
| CanvasEngine.Canvas.MouseOut | src/canvas/Canvas.ts:154-176 | in select mode a drag is cancelled (drag flag and shape cleared, only while dragging); in a creation mode the gesture is reset; the list never changes |
| CanvasEngine.Canvas.AddShape | src/canvas/Canvas.ts:246-249 | appends at the end; nothing else changes |
| CanvasEngine.Canvas.InitialiseShapesList | src/canvas/Canvas.ts:266-276 | the list is replaced by six new, distinct seed shapes in a fixed order |
| Controller.SeedFigures | src/controller/Canvas.ts:108-115 | there are six seed shapes, built with the constructors; the fifth rectangle is built without a line width |
| Controller.SeedsMatchEngine | src/controller/Canvas.ts:113 | the omitted width defaults to 1, so the controller's seeds equal the engine's |
| Controller.Canvas.constructor | src/controller/Canvas.ts:17-22 | the controller starts idle, holding six new distinct seed shapes |
| Controller.Canvas.MouseDown | src/controller/Canvas.ts:42-57 | the start point becomes p, and the first hit in list order becomes current, with dragging iff one is found; with no hit nothing is current |
| Controller.Canvas.MouseUp | src/controller/Canvas.ts:59-66 | clears only the drag flag and keeps the current shape |
| Controller.Canvas.MouseOut | src/controller/Canvas.ts:68-76 | while dragging, clears both the flag and the shape; otherwise nothing changes |
| Controller.Canvas.MouseMove | src/controller/Canvas.ts:78-91 | while dragging, only the current shape (non-null by the invariant) moves, by the delta, and the start becomes the position |
| Controller.Canvas.AddShape | src/controller/Canvas.ts:93-96 | appends at the end, keeping the earlier order |
| Controller.Canvas.InitialiseShapesList | src/controller/Canvas.ts:107-117 | the list is replaced by six new distinct seeds, the fifth with line width 1 |
| StyleControls.ParseHex | src/ui/StyleControls.ts:13 | `parseInt(s, 16)` is NaN exactly when the string does not start with a hex digit |
| StyleControls.ParseDecimal | src/ui/StyleControls.ts:44 | `parseInt(s, 10)` is NaN exactly when the string does not start with a decimal digit |
| StyleControls.DecimalText | src/ui/StyleControls.ts:17 | a channel prints as a non-empty string of decimal digits |
| StyleControls.DecimalTextRoundTrip | src/ui/StyleControls.ts:17 | the printed digits read back as the channel's value |
| StyleControls.RemoveFirstHash | src/ui/StyleControls.ts:12 | `replace('#', '')` shortens a string that has a `'#'` by exactly one character, and leaves a string without one as it is |
| StyleControls.HashIndex | src/ui/StyleControls.ts:12 | the index found holds a `'#'` and no earlier position does |
| StyleControls.RemoveFirstHashSplice | src/ui/StyleControls.ts:12 | for a string with a `'#'`, the result is the string with exactly its first `'#'` cut out, everything before and after kept |
| StyleControls.Channels | src/ui/StyleControls.ts:14-16 | every channel is in 0..255, because of the `& 255` masks |
| StyleControls.HexToRgbaForm | src/ui/StyleControls.ts:11-18 | for every hex string, the result is `rgba(` followed by the three channel values below 256 in decimal, separated by commas, then `,`, the alpha and `)` |
| StyleControls.SixDigitHexToRgba | src/ui/StyleControls.ts:11-18 | for `#` followed by six hex digits, the result is `rgba(` with the decimal values of digit pairs 1-2, 3-4 and 5-6, then the alpha |
| StyleControls.SixDigitHexChannels | src/ui/StyleControls.ts:11-16 | for `#` plus 6 hex digits, or the 6 digits alone, red, green and blue are the values of digit pairs 1-2, 3-4 and 5-6 |
| StyleControls.SixDigitValue | src/ui/StyleControls.ts:13 | six hex digits parse to the three pair values weighted by 65536, 256 and 1 |
| StyleControls.ChannelsSplit | src/ui/StyleControls.ts:14-16 | the shifts and masks recover the three bytes of a 24-bit value |
| StyleControls.CirclePreviewChannels | src/ui/StyleControls.ts:11-16 | `#4D96FF` has channels 77, 150 and 255 |
| StyleControls.CirclePreviewValue | src/ui/StyleControls.ts:13 | `parseInt("4D96FF", 16)` is 77·65536 + 150·256 + 255 |
| StyleControls.CirclePreviewFill | src/ui/StyleControls.ts:11-18 | `hexToRgba('#4D96FF', 0.2)` is `rgba(77,150,255,0.2)`, the circle preview fill used by the canvas |
| StyleControls.DoubleHashIsBlack | src/ui/StyleControls.ts:12-13 | only the first `'#'` is stripped, so `'##abcdef'` parses as NaN and gives black |
| StyleControls.FinalLineWidth | src/ui/StyleControls.ts:42-45 | an empty field gives 1; a numeric result is at least 1; the result is NaN exactly when a non-empty field has no leading digit |
| StyleControls.FinalLineWidthValue | src/ui/StyleControls.ts:42-45 | for every field made of the decimal text of n followed by anything that does not start with a digit, the line width is `max(1, n)` |
| StyleControls.LineWidthExamples | src/ui/StyleControls.ts:42-45 | `''` and `'0'` give 1, `'4px'` gives 4, and `'px'` gives NaN |
| StyleControls.StylePatch | src/ui/StyleControls.ts:49-57 | the patch sets exactly the six final and preview keys |
| StyleControls.PatchDerivesPreview | src/ui/StyleControls.ts:49-59 | merged into a mode, the patch sets the final values from the fields, the preview fill to `hexToRgba(fill, 0.2)`, the preview stroke to the final stroke and the preview width to 2, and keeps every other attribute |
| StyleControls.StyleControls.constructor | src/ui/StyleControls.ts:82 | initialisation sends the patch for the initial values once |
| StyleControls.StyleControls.Apply | src/ui/StyleControls.ts:41-60 | sends one patch computed from the current field values |
| StyleControls.StyleControls.OnInput | src/ui/StyleControls.ts:62-64 | an input event re-sends the patch for the new values |
| StyleControls.StyleControls.OnSwatchClick | src/ui/StyleControls.ts:66-76 | a click on a button overwrites fill or stroke only when that data attribute is non-empty, then sends the patch; a click elsewhere does nothing |
| Toolbar.IsToolName | src/toolbar.ts:3-8 | a value is accepted exactly when it is the name of one of the four tools |
| Toolbar.ParseTool | src/toolbar.ts:3-8 | a value names a tool iff it is one of the strings 'select', 'circle', 'square' and 'rectangle', and it is then that tool's name |
| Toolbar.ParseToolName | src/toolbar.ts:3-8 | every tool's name is accepted and read back as that tool |
| Toolbar.Lower | src/toolbar.ts:52 | lower-casing maps the ASCII letters `A`-`Z` to `a`-`z` and keeps the length and every other character |
| Toolbar.ShortcutTool | src/toolbar.ts:52-56 | a key selects a tool only if it is a single character whose lower case is that tool's letter |
| Toolbar.ShortcutSelects | src/toolbar.ts:52-56 | v, c, s and r, in either case, select select, circle, square and rectangle |
| Toolbar.NamedKeysIgnored | src/toolbar.ts:52-56 | named keys such as Shift are not shortcuts |
| Toolbar.Toolbar.constructor | src/toolbar.ts:24-62 | the tool starts at `initial ?? 'select'`; the activation is silent; the key handler is registered unless shortcuts are disabled with an explicit false |
| Toolbar.Toolbar.SetActive | src/toolbar.ts:75-92 | the tool becomes current; exactly the buttons whose data-tool equals it are pressed; the callback is called iff the change is not silent and a callback exists |
| Toolbar.Toolbar.OnClick | src/toolbar.ts:32-42 | a click on a button whose data-tool is a tool name activates that tool; any other click changes nothing |
| Toolbar.Toolbar.OnKeyDown | src/toolbar.ts:45-57 | while the handler is registered, and the focus is not in an INPUT or TEXTAREA, a shortcut key activates its tool; otherwise nothing changes |
| Toolbar.Toolbar.Destroy | src/toolbar.ts:64-69 | the key handler is removed, and a second call does nothing |
| App.MapToolToMode | src/app.ts:6-17 | only 'select' maps to a non-creation mode |
| App.MapToolToModeBijective | src/app.ts:6-17 | the map is total, injective and onto: it has an inverse on both sides |
| App.ModeNameExtendsToolName | src/app.ts:6-17 | select maps to 'select', and each other tool to 'create_' followed by its name |
| App.StartCanvas | src/app.ts:20-24 | the canvas is new, in select mode, idle, and holds the seed shapes again after the second `initialiseShapesList` |
| App.App.constructor | src/app.ts:19-40 | the application starts with the canvas in select mode with the seeds, and a toolbar at 'select' with shortcuts on, when the bar's root exists |
| App.App.OnChange | src/app.ts:36-39 | the callback sets the canvas mode to `mapToolToMode(tool)` and abandons any creation gesture; the drag flag, current shape, start point, mouse position and shape list are kept |
| App.App.Click | src/app.ts:36-39 | after a toolbar click the canvas mode is still the mode of the toolbar's tool; a click that activates a tool switches the canvas to its mode as `setMode` does (gesture abandoned, drag fields and shapes kept), and any other click leaves the canvas unchanged |
| App.App.KeyDown | src/app.ts:36-39 | after a shortcut key the canvas mode is still the mode of the toolbar's tool; a key that activates a tool switches the canvas to its mode as `setMode` does, and any other key leaves the canvas unchanged |

## Left out

- Painting is not modelled: `draw`, the bodies of `renderOverlay`, `drawShapes`, `drawShapesWithPreview`, `clearRect`, `save` and `restore`. The overlay guards are kept, as `Overlay`.
- DOM lookups, canvas sizing from the window size, `preventDefault` and `getBoundingClientRect` are left out. The client rectangle and the buffer size are parameters.
- The focus element's tag, the pressed key and the click target are inputs. The window keydown registration is the toolbar's `keyHandler` flag. The toolbar's CSS class toggling is not modelled.
- `Math.hypot` is a caller-supplied value satisfying the hypot equation. IEEE-754 rounding is not modelled: coordinates are reals.
- `reportAction`'s message texts and their `Math.round` formatting are not modelled. Only which kind of entry is logged is recorded.
- `CanvasEngine.CanvasPoint` requires a non-zero client rectangle size: the browser's Infinity/NaN result for a 0-size element is not modelled.
- `StyleControls.ParseHex` and `StyleControls.ParseDecimal` read only leading digits. `parseInt`'s skipping of leading white space, a sign and a `0x` prefix is not modelled.
- Toolbar.Lower: lower-cases ASCII letters only, while `toLowerCase` also lower-cases non-ASCII letters (`É` to `é`, `Σ` to `σ`). This does not change `ShortcutTool`: no character other than `V`, `C`, `S` and `R` lower-cases to `v`, `c`, `s` or `r`, and the model keeps every non-ASCII key unchanged, so it selects no tool.
- StyleControls.FinalLineWidth: gives `NaN` for a field that starts with white space or a sign, because the modelled `parseInt` reads only leading digits. The source skips those, so `' 4'` gives 4 and `'-2'` gives 1, where the model gives `NaN` for both. For fields that start with a digit, the model and the source agree.
- StyleControls.Channels takes the parse result as an exact integer. `parseInt` returns a double, which can round a value above 2^53 (14 or more hex digits) before the shifts (`'1ffffffffffffff'` becomes 2^57 and gives black). Such inputs are not modelled.
- `StyleControls.HexToRgba` takes the alpha as text. `0.2` is its only use, and it prints as `0.2`.
- `canvas.updateModeAttributes` is not part of this model. The style panel records the patches it would send.
- The missing required-element error of `initStyleControls` is not modelled, and neither is `setVisible`.
- The coalescing render loop and `setMode(modeObject)` are not part of this model. A mode's handlers are called directly with a context, rather than through an `EventMap` attached by the dispatcher.
- The registrations the dispatcher manages are modelled as a set, since the DOM keeps at most one per (type, listener) pair. Registrations of other event types are not modelled.
- `DEFAULT_TOL` is imported by `src/shapes/Rectangle.ts` but not exported by the geometry file. The constant 2 of `between` is used.
- `src/ui/LogWindow.ts` is not modelled: it is text output.
- The toolbar's `value` getter is not given a contract: it just returns `current`.
- In `main`, the canvas sizing and the `console.error` for a missing bar are not modelled.
