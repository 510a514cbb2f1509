/**
 * The tool bar (src/toolbar.ts): four buttons that select a tool, single
 * key shortcuts, and an optional change callback. The callback's calls are
 * recorded in `notified`; the window's keydown registration is the flag
 * `keyHandler`.
 */
module Toolbar {
  import opened Wrappers
  import opened Js

  /** `ToolName`. */
  datatype ToolName = Select | Circle | Square | Rectangle
  {
    function Name(): string {
      match this
      case Select => "select"
      case Circle => "circle"
      case Square => "square"
      case Rectangle => "rectangle"
    }

    /** The lower-case key that selects the tool. */
    function Shortcut(): char {
      match this
      case Select => 'v'
      case Circle => 'c'
      case Square => 's'
      case Rectangle => 'r'
    }
  }

  /** `isToolName`: a string among the four tool names (any other value is refused). */
  predicate IsToolName(v: JsValue)
    ensures IsToolName(v) <==> exists t: ToolName :: v == Str(t.Name())
  {
    assert forall t: ToolName :: t.Name() in ["select", "circle", "square", "rectangle"];
    assert v == Str("select") ==> v == Str(Select.Name());
    assert v == Str("circle") ==> v == Str(Circle.Name());
    assert v == Str("square") ==> v == Str(Square.Name());
    assert v == Str("rectangle") ==> v == Str(Rectangle.Name());
    v.Str? && v.s in ["select", "circle", "square", "rectangle"]
  }

  /** The tool a value names, when `isToolName` accepts it. */
  function ParseTool(v: JsValue): (r: Option<ToolName>)
    ensures r.Some? <==> IsToolName(v)
    ensures r.Some? ==> v == Str(r.value.Name())
  {
    if v == Str("select") then Some(Select)
    else if v == Str("circle") then Some(Circle)
    else if v == Str("square") then Some(Square)
    else if v == Str("rectangle") then Some(Rectangle)
    else None
  }

  /** Every tool's name is accepted and read back as that tool. */
  lemma ParseToolName(t: ToolName)
    ensures IsToolName(Str(t.Name())) && ParseTool(Str(t.Name())) == Some(t)
  {
  }

  /** `toLowerCase` on ASCII letters; other characters are kept. */
  function Lower(s: string): (r: string)
    ensures |r| == |s|
    ensures forall i :: 0 <= i < |s| ==> r[i] == if 'A' <= s[i] <= 'Z' then (s[i] as int + 32) as char else s[i]
  {
    if s == [] then []
    else [if 'A' <= s[0] <= 'Z' then (s[0] as int + 32) as char else s[0]] + Lower(s[1..])
  }

  /** The tool a pressed key selects: `v`, `c`, `s`, `r` in either case. */
  function ShortcutTool(key: string): (r: Option<ToolName>)
    ensures r.Some? ==> |key| == 1 && Lower(key) == [r.value.Shortcut()]
  {
    var k := Lower(key);
    if k == "v" then Some(Select)
    else if k == "c" then Some(Circle)
    else if k == "s" then Some(Square)
    else if k == "r" then Some(Rectangle)
    else None
  }

  /** Each tool's key selects it, in lower and in upper case. */
  lemma ShortcutSelects(t: ToolName)
    ensures ShortcutTool([t.Shortcut()]) == Some(t)
    ensures ShortcutTool([(t.Shortcut() as int - 32) as char]) == Some(t)
  {
  }

  /** Named keys are not shortcuts, even those that start with a shortcut letter. */
  lemma NamedKeysIgnored()
    ensures ShortcutTool("Shift").None? && ShortcutTool("ArrowRight").None? && ShortcutTool("Control").None?
  {
    assert |Lower("Shift")| != 1 && |Lower("ArrowRight")| != 1 && |Lower("Control")| != 1;
  }

  /** Shortcuts are ignored while an input or text area has the focus (no element counts as ''). */
  predicate TypingInField(focusTag: JsValue) {
    Coalesce(focusTag, Str("")) in [Str("INPUT"), Str("TEXTAREA")]
  }

  /** `String(active)` for a button's `aria-pressed` attribute. */
  function AriaPressed(active: bool): string {
    if active then "true" else "false"
  }

  /** A `button[data-tool]` element. */
  class Button {
    const dataTool: string
    var ariaPressed: string

    constructor (dataTool: string)
      ensures this.dataTool == dataTool && ariaPressed == ""
    {
      this.dataTool := dataTool;
      ariaPressed := "";
    }
  }

  class Toolbar {
    var buttons: seq<Button>
    var current: ToolName
    /** Whether `opts.onChange` was supplied. */
    const hasOnChange: bool
    /** The tools passed to the change callback, in order. */
    var notified: seq<ToolName>
    /** Whether the keydown handler exists and is registered on the window. */
    var keyHandler: bool

    /** Each button is pressed exactly when its data-tool names `current`. */
    predicate Pressed()
      reads this, buttons
    {
      forall i :: 0 <= i < |buttons| ==> buttons[i].ariaPressed == AriaPressed(buttons[i].dataTool == current.Name())
    }

    /**
     * The constructor starts at `initial ?? 'select'`, registers the key
     * handler unless shortcuts are disabled with an explicit false, and
     * activates the starting tool silently.
     */
    constructor (buttons: seq<Button>, initial: Option<ToolName>, hasOnChange: bool, enableShortcuts: Option<bool>)
      modifies buttons
      ensures this.buttons == buttons && this.hasOnChange == hasOnChange
      ensures current == (if initial.Some? then initial.value else Select)
      ensures Pressed() && notified == []
      ensures keyHandler <==> enableShortcuts != Some(false)
    {
      this.buttons := buttons;
      this.hasOnChange := hasOnChange;
      current := if initial.Some? then initial.value else Select;
      notified := [];
      keyHandler := enableShortcuts != Some(false);
      new;
      SetActive(current, true);
    }

    /**
     * setActive: makes `tool` current, sets every button's aria-pressed,
     * and calls the change callback unless silent.
     */
    method SetActive(tool: ToolName, silent: bool)
      modifies this, buttons
      ensures current == tool && Pressed()
      ensures notified == old(notified) + (if !silent && hasOnChange then [tool] else [])
      ensures buttons == old(buttons) && keyHandler == old(keyHandler)
    {
      current := tool;
      var i := 0;
      while i < |buttons|
        invariant 0 <= i <= |buttons| && current == tool
        invariant buttons == old(buttons) && notified == old(notified) && keyHandler == old(keyHandler)
        invariant forall j :: 0 <= j < i ==> buttons[j].ariaPressed == AriaPressed(buttons[j].dataTool == tool.Name())
      {
        buttons[i].ariaPressed := AriaPressed(buttons[i].dataTool == tool.Name());
        i := i + 1;
      }
      if !silent && hasOnChange {
        notified := notified + [tool];
      }
    }

    /**
     * A click on the bar: ignored unless it landed in a tool button whose
     * data-tool is a tool name; that tool is then activated (not silently).
     */
    method OnClick(onButton: bool, dataTool: JsValue)
      modifies this, buttons
      ensures buttons == old(buttons) && keyHandler == old(keyHandler)
      ensures onButton && IsToolName(dataTool) ==>
        var t := ParseTool(dataTool).value;
        current == t && Pressed() && notified == old(notified) + (if hasOnChange then [t] else [])
      ensures !(onButton && IsToolName(dataTool)) ==>
        current == old(current) && notified == old(notified)
        && forall i :: 0 <= i < |buttons| ==> buttons[i].ariaPressed == old(buttons[i].ariaPressed)
    {
      if !onButton {
        return;
      }
      var tool := ParseTool(dataTool);
      if tool.None? {
        return;
      }
      SetActive(tool.value, false);
    }

    /**
     * A keydown on the window: handled only while the handler is
     * registered and no text field has the focus; a shortcut key activates
     * its tool.
     */
    method OnKeyDown(focusTag: JsValue, key: string)
      modifies this, buttons
      ensures buttons == old(buttons) && keyHandler == old(keyHandler)
      ensures keyHandler && !TypingInField(focusTag) && ShortcutTool(key).Some? ==>
        var t := ShortcutTool(key).value;
        current == t && Pressed() && notified == old(notified) + (if hasOnChange then [t] else [])
      ensures !(keyHandler && !TypingInField(focusTag) && ShortcutTool(key).Some?) ==>
        current == old(current) && notified == old(notified)
        && forall i :: 0 <= i < |buttons| ==> buttons[i].ariaPressed == old(buttons[i].ariaPressed)
    {
      if !keyHandler || TypingInField(focusTag) {
        return;
      }
      var tool := ShortcutTool(key);
      if tool.Some? {
        SetActive(tool.value, false);
      }
    }

    /** destroy: unregisters the key handler; a second call does nothing. */
    method Destroy()
      modifies this
      ensures !keyHandler
      ensures current == old(current) && notified == old(notified) && buttons == old(buttons)
    {
      if keyHandler {
        keyHandler := false;
      }
    }
  }
}
