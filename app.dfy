/**
 * Start-up and wiring (src/app.ts): the canvas starts in select mode with
 * the seed shapes, and the tool bar's change callback switches the canvas
 * to the mode of the chosen tool.
 */
module App {
  import opened Wrappers
  import opened Js
  import opened Bar = Toolbar
  import Shapes
  import CanvasEngine

  /** `mapToolToMode`. */
  function MapToolToMode(tool: ToolName): (m: CanvasEngine.CanvasMode)
    ensures m.IsCreation() <==> tool != Select
  {
    match tool
    case Select => CanvasEngine.Select
    case Circle => CanvasEngine.CreateCircle
    case Square => CanvasEngine.CreateSquare
    case Rectangle => CanvasEngine.CreateRectangle
  }

  /** The tool whose mode a canvas mode is. */
  function ToolForMode(m: CanvasEngine.CanvasMode): ToolName {
    match m
    case Select => Select
    case CreateCircle => Circle
    case CreateSquare => Square
    case CreateRectangle => Rectangle
  }

  /** Tools and canvas modes correspond one to one. */
  lemma MapToolToModeBijective(t: ToolName, m: CanvasEngine.CanvasMode)
    ensures ToolForMode(MapToolToMode(t)) == t && MapToolToMode(ToolForMode(m)) == m
    ensures MapToolToMode(t) == m <==> ToolForMode(m) == t
  {
  }

  /** The creation mode's name is `create_` followed by the tool's name. */
  lemma ModeNameExtendsToolName(t: ToolName)
    ensures t != Select ==> MapToolToMode(t).Name() == "create_" + t.Name()
    ensures t == Select ==> MapToolToMode(t).Name() == t.Name()
  {
  }

  /** The canvas part of main: a new canvas, its seed shapes installed again, select mode. */
  method StartCanvas(bufferWidth: real, bufferHeight: real) returns (c: CanvasEngine.Canvas)
    ensures fresh(c) && c.Valid() && c.mode == CanvasEngine.Select && !c.isCreating && !c.isDragging
    ensures Shapes.Figures(c.shapesList) == CanvasEngine.SeedFigures()
  {
    c := new CanvasEngine.Canvas(bufferWidth, bufferHeight);
    c.InitialiseShapesList();
    c.SetMode(CanvasEngine.Select);
  }

  /** The running application: the canvas and, when its root exists, the tool bar. */
  class App {
    const canvas: CanvasEngine.Canvas
    const toolbar: Bar.Toolbar?

    /** The tool bar's current tool is the canvas mode, and its change callback is wired. */
    predicate Valid()
      reads this, canvas, toolbar
    {
      canvas.Valid()
      && (toolbar != null ==> toolbar.hasOnChange && canvas.mode == MapToolToMode(toolbar.current))
    }

    /**
     * main: makes the canvas, installs the seed shapes again, selects
     * select mode, then (when the bar's root exists) makes the tool bar at
     * 'select' with shortcuts on.
     */
    constructor (bufferWidth: real, bufferHeight: real, barFound: bool, buttons: seq<Button>)
      modifies buttons
      ensures Valid() && canvas.mode == CanvasEngine.Select && !canvas.isCreating && !canvas.isDragging
      ensures Shapes.Figures(canvas.shapesList) == CanvasEngine.SeedFigures()
      ensures toolbar != null <==> barFound
      ensures toolbar != null ==>
        toolbar.buttons == buttons && toolbar.current == Select && toolbar.Pressed()
        && toolbar.notified == [] && toolbar.keyHandler
    {
      var c := StartCanvas(bufferWidth, bufferHeight);
      var t: Bar.Toolbar? := null;
      if barFound {
        t := new Bar.Toolbar(buttons, Some(Select), true, Some(true));
      }
      canvas := c;
      toolbar := t;
    }

    /** The change callback: runs for each tool the tool bar announced. */
    method OnChange(tool: ToolName)
      requires canvas.Valid()
      modifies canvas
      ensures canvas.Valid() && canvas.mode == MapToolToMode(tool)
      ensures !canvas.isCreating && canvas.shapesList == old(canvas.shapesList)
      ensures canvas.isDragging == old(canvas.isDragging) && canvas.currentShape == old(canvas.currentShape)
      ensures canvas.startPoint == old(canvas.startPoint) && canvas.mousePosition == old(canvas.mousePosition)
      ensures canvas.previewShape.None? && canvas.createAnchor.None?
    {
      canvas.SetMode(MapToolToMode(tool));
    }

    /**
     * After a `setMode` from the change callback: the mode of the tool, any
     * creation gesture abandoned, the drag fields and the shape list kept.
     */
    twostate predicate SwitchedTo(c: CanvasEngine.Canvas, tool: ToolName)
      reads c
    {
      c.mode == MapToolToMode(tool) && !c.isCreating && c.previewShape.None? && c.createAnchor.None?
      && c.shapesList == old(c.shapesList) && c.isDragging == old(c.isDragging)
      && c.currentShape == old(c.currentShape) && c.startPoint == old(c.startPoint)
      && c.mousePosition == old(c.mousePosition)
    }

    /**
     * A click on the tool bar keeps the canvas mode in step with the tool: a
     * click that activates a tool switches the canvas to its mode, any other
     * click leaves the canvas as it was.
     */
    method Click(onButton: bool, dataTool: JsValue)
      requires Valid() && toolbar != null
      modifies canvas, toolbar, toolbar.buttons
      ensures Valid()
      ensures toolbar.buttons == old(toolbar.buttons) && toolbar.keyHandler == old(toolbar.keyHandler)
      ensures onButton && IsToolName(dataTool) ==> toolbar.current == ParseTool(dataTool).value
      ensures !(onButton && IsToolName(dataTool)) ==> toolbar.current == old(toolbar.current)
      ensures onButton && IsToolName(dataTool) ==> SwitchedTo(canvas, ParseTool(dataTool).value)
      ensures !(onButton && IsToolName(dataTool)) ==> unchanged(canvas)
    {
      var before := |toolbar.notified|;
      toolbar.OnClick(onButton, dataTool);
      if |toolbar.notified| > before {
        OnChange(toolbar.notified[|toolbar.notified| - 1]);
      }
    }

    /**
     * A shortcut key keeps the canvas mode in step with the tool: a key that
     * activates a tool switches the canvas to its mode, any other key leaves
     * the canvas as it was.
     */
    method KeyDown(focusTag: JsValue, key: string)
      requires Valid() && toolbar != null
      modifies canvas, toolbar, toolbar.buttons
      ensures Valid()
      ensures toolbar.buttons == old(toolbar.buttons) && toolbar.keyHandler == old(toolbar.keyHandler)
      ensures toolbar.keyHandler && !TypingInField(focusTag) && ShortcutTool(key).Some? ==>
        toolbar.current == ShortcutTool(key).value
      ensures !(toolbar.keyHandler && !TypingInField(focusTag) && ShortcutTool(key).Some?) ==>
        toolbar.current == old(toolbar.current)
      ensures toolbar.keyHandler && !TypingInField(focusTag) && ShortcutTool(key).Some? ==>
        SwitchedTo(canvas, ShortcutTool(key).value)
      ensures !(toolbar.keyHandler && !TypingInField(focusTag) && ShortcutTool(key).Some?) ==> unchanged(canvas)
    {
      var before := |toolbar.notified|;
      toolbar.OnKeyDown(focusTag, key);
      if |toolbar.notified| > before {
        OnChange(toolbar.notified[|toolbar.notified| - 1]);
      }
    }
  }
}
