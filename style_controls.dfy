/**
 * The style panel (src/ui/StyleControls.ts): it turns the fill, stroke and
 * line-width inputs into an attribute patch for the active creation mode,
 * deriving the preview fill from the final fill with `hexToRgba`.
 *
 * `parseInt` is modelled as reading the longest run of leading digits of
 * the given radix (no digits: NaN); its skipping of leading white space, a
 * sign and a `0x` prefix is not modelled. The rendering of the alpha number
 * as text is an input (`alphaText`).
 */
module StyleControls {
  import opened Wrappers
  import opened Js
  import BaseMode

  // ------------------------------------------------------------ digits

  predicate IsHexDigit(c: char) {
    '0' <= c <= '9' || 'a' <= c <= 'f' || 'A' <= c <= 'F'
  }

  function HexDigitValue(c: char): (v: nat)
    requires IsHexDigit(c)
    ensures v < 16
  {
    if '0' <= c <= '9' then c as int - '0' as int
    else if 'a' <= c <= 'f' then c as int - 'a' as int + 10
    else c as int - 'A' as int + 10
  }

  predicate IsDecimalDigit(c: char) {
    '0' <= c <= '9'
  }

  function DecimalDigitValue(c: char): (v: nat)
    requires IsDecimalDigit(c)
    ensures v < 10
  {
    c as int - '0' as int
  }

  /** The number of leading characters that satisfy the digit test of the radix. */
  function DigitRun(s: string, hex: bool): (n: nat)
    ensures n <= |s|
    ensures forall i :: 0 <= i < n ==> if hex then IsHexDigit(s[i]) else IsDecimalDigit(s[i])
    ensures n < |s| ==> !(if hex then IsHexDigit(s[n]) else IsDecimalDigit(s[n]))
  {
    if s == [] || !(if hex then IsHexDigit(s[0]) else IsDecimalDigit(s[0])) then 0
    else 1 + DigitRun(s[1..], hex)
  }

  /** The value of a string of hexadecimal digits, most significant first. */
  function HexValue(s: string): nat
    requires forall i :: 0 <= i < |s| ==> IsHexDigit(s[i])
  {
    if s == [] then 0 else HexValue(s[..|s| - 1]) * 16 + HexDigitValue(s[|s| - 1])
  }

  /** The value of a string of decimal digits, most significant first. */
  function DecimalValue(s: string): nat
    requires forall i :: 0 <= i < |s| ==> IsDecimalDigit(s[i])
  {
    if s == [] then 0 else DecimalValue(s[..|s| - 1]) * 10 + DecimalDigitValue(s[|s| - 1])
  }

  /** `parseInt(s, 16)`: the value of the leading hex digits, or NaN (None) when there are none. */
  function ParseHex(s: string): (r: Option<nat>)
    ensures r.None? <==> (s == [] || !IsHexDigit(s[0]))
  {
    var n := DigitRun(s, true);
    if n == 0 then None else Some(HexValue(s[..n]))
  }

  /** `parseInt(s, 10)`: the value of the leading decimal digits, or NaN (None). */
  function ParseDecimal(s: string): (r: Option<nat>)
    ensures r.None? <==> (s == [] || !IsDecimalDigit(s[0]))
  {
    var n := DigitRun(s, false);
    if n == 0 then None else Some(DecimalValue(s[..n]))
  }

  /** The decimal text of a natural number (the template literal's number-to-string). */
  function DecimalText(n: nat): (s: string)
    ensures |s| >= 1 && forall i :: 0 <= i < |s| ==> IsDecimalDigit(s[i])
  {
    if n < 10 then [('0' as int + n) as char]
    else DecimalText(n / 10) + [('0' as int + n % 10) as char]
  }

  /** Decimal text reads back as the number it was made from. */
  lemma {:induction false} DecimalTextRoundTrip(n: nat)
    ensures DecimalValue(DecimalText(n)) == n
  {
    var s := DecimalText(n);
    if n >= 10 {
      DecimalTextRoundTrip(n / 10);
      assert s[..|s| - 1] == DecimalText(n / 10);
    }
  }

  // ------------------------------------------------------------ hexToRgba

  /** The position of the first '#'. */
  function HashIndex(s: string): (i: nat)
    requires '#' in s
    ensures i < |s| && s[i] == '#' && '#' !in s[..i]
  {
    if s[0] == '#' then 0 else 1 + HashIndex(s[1..])
  }

  /** `hex.replace('#', '')`: a string pattern replaces only its first occurrence. */
  function RemoveFirstHash(s: string): (r: string)
    ensures '#' !in s ==> r == s
    ensures '#' in s ==> |r| == |s| - 1
  {
    if s == [] then []
    else if s[0] == '#' then s[1..]
    else [s[0]] + RemoveFirstHash(s[1..])
  }

  /** Exactly the first '#' is cut out; everything before and after it is kept. */
  lemma {:induction false} RemoveFirstHashSplice(s: string)
    requires '#' in s
    ensures RemoveFirstHash(s) == s[..HashIndex(s)] + s[HashIndex(s) + 1..]
  {
    if s[0] != '#' {
      assert '#' in s[1..] by {
        var i := HashIndex(s);
        assert s[1..][i - 1] == '#';
      }
      RemoveFirstHashSplice(s[1..]);
      assert HashIndex(s) == 1 + HashIndex(s[1..]);
      var k := HashIndex(s[1..]);
      assert s[1..][..k] == s[1..k + 1];
      assert s[1..][k + 1..] == s[k + 2..];
      assert [s[0]] + s[1..k + 1] == s[..k + 1];
    }
  }

  /** The three colour channels `hexToRgba` extracts. */
  datatype Rgb = Rgb(red: nat, green: nat, blue: nat)

  const TwoTo32: int := 0x1_0000_0000

  /**
   * `(v >> 16) & 255`, `(v >> 8) & 255`, `v & 255` on a parse result: NaN
   * converts to 0 and a number to its low 32 bits before the shifts. The
   * parse result is taken as an exact integer; `parseInt` returns a double,
   * which rounds values of more than 13 hex digits before the shifts, and
   * such inputs are outside this model.
   */
  function Channels(parsed: Option<nat>): (c: Rgb)
    ensures c.red < 256 && c.green < 256 && c.blue < 256
  {
    var bits := match parsed case None => 0 case Some(v) => v % TwoTo32;
    Rgb((bits / 0x1_0000) % 256, (bits / 0x100) % 256, bits % 256)
  }

  /** `hexToRgba(hex, alpha)`. */
  function HexToRgba(hex: string, alphaText: string): string {
    var c := Channels(ParseHex(RemoveFirstHash(hex)));
    "rgba(" + DecimalText(c.red) + "," + DecimalText(c.green) + "," + DecimalText(c.blue)
      + "," + alphaText + ")"
  }

  /**
   * Whatever the hex string, `hexToRgba` gives `rgba(` then three decimal
   * channel texts of values below 256 separated by commas, then `,`, the
   * alpha and `)`.
   */
  lemma HexToRgbaForm(hex: string, alphaText: string)
    ensures var c := Channels(ParseHex(RemoveFirstHash(hex)));
      c.red < 256 && c.green < 256 && c.blue < 256
      && HexToRgba(hex, alphaText)
         == "rgba(" + DecimalText(c.red) + "," + DecimalText(c.green) + "," + DecimalText(c.blue)
            + "," + alphaText + ")"
    ensures var r := HexToRgba(hex, alphaText);
      |r| >= |alphaText| + 12 && r[..5] == "rgba(" && r[|r| - |alphaText| - 2..] == "," + alphaText + ")"
  {
    var c := Channels(ParseHex(RemoveFirstHash(hex)));
    var body := DecimalText(c.red) + "," + DecimalText(c.green) + "," + DecimalText(c.blue);
    var tail := "," + alphaText + ")";
    assert HexToRgba(hex, alphaText) == "rgba(" + body + tail;
    assert ("rgba(" + body + tail)[..5] == "rgba(";
    assert ("rgba(" + body + tail)[5 + |body|..] == tail;
  }

  /** For `#` and six hex digits, `hexToRgba` prints the values of the three digit pairs. */
  lemma SixDigitHexToRgba(d: string, alphaText: string)
    requires |d| == 6 && forall i :: 0 <= i < 6 ==> IsHexDigit(d[i])
    ensures HexToRgba("#" + d, alphaText)
         == "rgba(" + DecimalText(HexValue(d[0..2])) + "," + DecimalText(HexValue(d[2..4])) + ","
            + DecimalText(HexValue(d[4..6])) + "," + alphaText + ")"
  {
    SixDigitHexChannels("#" + d, d);
  }

  /** The circle preview fill: `#4D96FF` at alpha 0.2. */
  lemma CirclePreviewFill()
    ensures HexToRgba("#4D96FF", PreviewAlpha) == "rgba(77,150,255,0.2)"
  {
    CirclePreviewChannels();
    CirclePreviewDigits();
  }

  /** The decimal texts of the channels 77, 150 and 255. */
  lemma CirclePreviewDigits()
    ensures DecimalText(77) == "77" && DecimalText(150) == "150" && DecimalText(255) == "255"
  {
    assert DecimalText(7) == "7";
    assert DecimalText(15) == "15" by { assert DecimalText(1) == "1"; }
    assert DecimalText(25) == "25" by { assert DecimalText(2) == "2"; }
  }

  /** `#4D96FF` has channels 77, 150 and 255. */
  lemma CirclePreviewChannels()
    ensures Channels(ParseHex(RemoveFirstHash("#4D96FF"))) == Rgb(77, 150, 255)
  {
    assert RemoveFirstHash("#4D96FF") == "4D96FF";
    CirclePreviewValue();
    ChannelsSplit(77, 150, 255);
  }

  /** `4D96FF` parses to 0x4D96FF. */
  lemma CirclePreviewValue()
    ensures ParseHex("4D96FF") == Some(77 * 0x1_0000 + 150 * 0x100 + 255)
  {
    var d := "4D96FF";
    assert IsHexDigit(d[0]) && IsHexDigit(d[1]) && IsHexDigit(d[2]);
    assert IsHexDigit(d[3]) && IsHexDigit(d[4]) && IsHexDigit(d[5]);
    ParseHexAllDigits(d);
    SixDigitValue(d);
    PairValues();
  }

  /** The three digit pairs of `4D96FF`. */
  lemma PairValues()
    ensures "4D96FF"[0..2] == "4D" && "4D96FF"[2..4] == "96" && "4D96FF"[4..6] == "FF"
    ensures HexValue("4D") == 77 && HexValue("96") == 150 && HexValue("FF") == 255
  {
    PairValue("4D");
    PairValue("96");
    PairValue("FF");
  }

  /** A string made only of hex digits parses whole. */
  lemma ParseHexAllDigits(s: string)
    requires s != [] && forall i :: 0 <= i < |s| ==> IsHexDigit(s[i])
    ensures ParseHex(s) == Some(HexValue(s))
  {
    DigitRunAll(s);
    assert s[..|s|] == s;
  }

  /** Six hex digits: the value splits into three digit pairs. */
  lemma SixDigitValue(d: string)
    requires |d| == 6 && forall i :: 0 <= i < 6 ==> IsHexDigit(d[i])
    ensures HexValue(d) == HexValue(d[0..2]) * 0x1_0000 + HexValue(d[2..4]) * 0x100 + HexValue(d[4..6])
  {
    var v := seq(6, i requires 0 <= i < 6 => HexDigitValue(d[i]));
    assert HexValue(d[..0]) == 0;
    assert d[..1][..0] == d[..0];
    assert HexValue(d[..1]) == v[0];
    assert d[..2][..1] == d[..1];
    assert HexValue(d[..2]) == v[0] * 16 + v[1];
    assert d[..3][..2] == d[..2];
    assert HexValue(d[..3]) == v[0] * 256 + v[1] * 16 + v[2];
    assert d[..4][..3] == d[..3];
    assert HexValue(d[..4]) == v[0] * 4096 + v[1] * 256 + v[2] * 16 + v[3];
    assert d[..5][..4] == d[..4];
    assert HexValue(d[..5]) == v[0] * 65536 + v[1] * 4096 + v[2] * 256 + v[3] * 16 + v[4];
    assert d[..6] == d;
    PairValue(d[0..2]);
    PairValue(d[2..4]);
    PairValue(d[4..6]);
  }

  /**
   * For `#rrggbb` or `rrggbb`, red, green and blue are the values of digit
   * pairs 1-2, 3-4 and 5-6.
   */
  lemma SixDigitHexChannels(hex: string, d: string)
    requires |d| == 6 && forall i :: 0 <= i < 6 ==> IsHexDigit(d[i])
    requires hex == "#" + d || hex == d
    ensures Channels(ParseHex(RemoveFirstHash(hex)))
         == Rgb(HexValue(d[0..2]), HexValue(d[2..4]), HexValue(d[4..6]))
  {
    assert '#' !in d by {
      forall i | 0 <= i < |d| ensures d[i] != '#' { assert IsHexDigit(d[i]); }
    }
    assert RemoveFirstHash(hex) == d;
    ParseHexAllDigits(d);
    SixDigitValue(d);
    PairValue(d[0..2]);
    PairValue(d[2..4]);
    PairValue(d[4..6]);
    ChannelsSplit(HexValue(d[0..2]), HexValue(d[2..4]), HexValue(d[4..6]));
  }

  /** A string made only of hex digits is read whole. */
  lemma {:induction false} DigitRunAll(s: string)
    requires forall i :: 0 <= i < |s| ==> IsHexDigit(s[i])
    ensures DigitRun(s, true) == |s|
  {
    if s != [] {
      DigitRunAll(s[1..]);
    }
  }

  /** A 24-bit value splits into its three bytes. */
  lemma ChannelsSplit(r: nat, g: nat, b: nat)
    requires r < 256 && g < 256 && b < 256
    ensures Channels(Some(r * 0x1_0000 + g * 0x100 + b)) == Rgb(r, g, b)
  {
    var v := r * 0x1_0000 + g * 0x100 + b;
    assert v < TwoTo32;
    assert v % TwoTo32 == v;
    assert v / 0x1_0000 == r;
    assert v / 0x100 == r * 0x100 + g;
    assert (r * 0x100 + g) % 256 == g;
    assert v % 256 == b;
  }

  /** Two hex digits: sixteen times the first plus the second, so below 256. */
  lemma PairValue(p: string)
    requires |p| == 2 && forall i :: 0 <= i < 2 ==> IsHexDigit(p[i])
    ensures HexValue(p) == HexDigitValue(p[0]) * 16 + HexDigitValue(p[1]) < 256
  {
    assert p[..1][..0] == [];
    assert HexValue(p[..1]) == HexDigitValue(p[0]);
  }

  /** Only the first '#' is removed: '##abcdef' has no leading hex digit and gives black. */
  lemma DoubleHashIsBlack()
    ensures Channels(ParseHex(RemoveFirstHash("##abcdef"))) == Rgb(0, 0, 0)
  {
  }

  // ------------------------------------------------------------ the patch

  /** The preview alpha `0.2` as the template literal prints it. */
  const PreviewAlpha: string := "0.2"

  /**
   * `Math.max(1, parseInt(value || '1', 10))`: an empty field counts as 1,
   * and a field with no leading digit gives NaN (Math.max propagates it).
   * Leading white space and a sign, which `parseInt` skips, count here as
   * no leading digit.
   */
  function FinalLineWidth(value: string): (w: JsValue)
    ensures value == "" ==> w == Num(1.0)
    ensures w.Num? ==> w.n >= 1.0
    ensures w.NaN? <==> value != "" && !IsDecimalDigit(value[0])
  {
    var text := if value == "" then "1" else value;
    assert text != "" && (text == "1" ==> IsDecimalDigit(text[0]));
    match ParseDecimal(text)
    case None => NaN
    case Some(n) => Num(if n as real >= 1.0 then n as real else 1.0)
  }

  /** A run of decimal digits followed by a non-digit (or nothing) is read exactly that far. */
  lemma {:induction false} DigitRunPrefix(d: string, rest: string)
    requires forall i :: 0 <= i < |d| ==> IsDecimalDigit(d[i])
    requires rest == [] || !IsDecimalDigit(rest[0])
    ensures DigitRun(d + rest, false) == |d|
  {
    if d != [] {
      assert (d + rest)[1..] == d[1..] + rest;
      DigitRunPrefix(d[1..], rest);
    } else {
      assert d + rest == rest;
    }
  }

  /**
   * For every numeric field (the decimal text of n, then anything that does
   * not start with a digit) the line width is `max(1, n)`.
   */
  lemma FinalLineWidthValue(n: nat, rest: string)
    requires rest == [] || !IsDecimalDigit(rest[0])
    ensures FinalLineWidth(DecimalText(n) + rest) == Num(if n >= 1 then n as real else 1.0)
  {
    var d := DecimalText(n);
    DigitRunPrefix(d, rest);
    assert (d + rest)[..|d|] == d;
    DecimalTextRoundTrip(n);
    assert (d + rest)[0] == d[0];
  }

  /** The patch `applyCurrentValuesToActiveMode` sends for the three field values. */
  function StylePatch(fill: string, stroke: string, lineWidth: string): (p: BaseMode.Fields)
    ensures p.Keys == {BaseMode.FinalFillColorKey, BaseMode.FinalStrokeColorKey, BaseMode.FinalLineWidthKey,
                       BaseMode.PreviewFillColorKey, BaseMode.PreviewStrokeColorKey, BaseMode.PreviewLineWidthKey}
  {
    map[BaseMode.FinalFillColorKey := Str(fill),
        BaseMode.FinalStrokeColorKey := Str(stroke),
        BaseMode.FinalLineWidthKey := FinalLineWidth(lineWidth),
        BaseMode.PreviewFillColorKey := Str(HexToRgba(fill, PreviewAlpha)),
        BaseMode.PreviewStrokeColorKey := Str(stroke),
        BaseMode.PreviewLineWidthKey := Num(2.0)]
  }

  /**
   * Merged into a mode's attributes, the patch sets the final values from
   * the fields and derives the preview ones: fill through hexToRgba at
   * alpha 0.2, the same stroke, width 2. Every other attribute is kept.
   */
  lemma PatchDerivesPreview(fields: BaseMode.Fields, fill: string, stroke: string, lineWidth: string)
    ensures var m := BaseMode.Merge(fields, StylePatch(fill, stroke, lineWidth));
      m[BaseMode.FinalFillColorKey] == Str(fill) && m[BaseMode.FinalStrokeColorKey] == Str(stroke)
      && m[BaseMode.FinalLineWidthKey] == FinalLineWidth(lineWidth)
      && m[BaseMode.PreviewFillColorKey] == Str(HexToRgba(fill, PreviewAlpha))
      && m[BaseMode.PreviewStrokeColorKey] == m[BaseMode.FinalStrokeColorKey]
      && m[BaseMode.PreviewLineWidthKey] == Num(2.0)
      && forall k :: k in fields && k !in StylePatch(fill, stroke, lineWidth) ==> m[k] == fields[k]
  {
  }

  /** A numeric field gives its value, raised to 1 when smaller. */
  lemma LineWidthExamples()
    ensures FinalLineWidth("") == Num(1.0)
    ensures FinalLineWidth("0") == Num(1.0)
    ensures FinalLineWidth("4px") == Num(4.0)
    ensures FinalLineWidth("px").NaN?
  {
    assert "0"[..1] == "0" && "4px"[..1] == "4";
    assert DigitRun("4px", false) == 1;
    assert DigitRun("0", false) == 1;
  }

  /**
   * The panel's state: the three input values and the patches sent to the
   * canvas so far (`canvas.updateModeAttributes` is not part of this model).
   */
  class StyleControls {
    var fillValue: string
    var strokeValue: string
    var lineWidthValue: string
    var sent: seq<BaseMode.Fields>

    /** Initialisation applies the current values once. */
    constructor (fill: string, stroke: string, lineWidth: string)
      ensures fillValue == fill && strokeValue == stroke && lineWidthValue == lineWidth
      ensures sent == [StylePatch(fill, stroke, lineWidth)]
    {
      fillValue := fill;
      strokeValue := stroke;
      lineWidthValue := lineWidth;
      sent := [StylePatch(fill, stroke, lineWidth)];
    }

    /** `applyCurrentValuesToActiveMode`: sends the patch for the current values. */
    method Apply()
      modifies this
      ensures sent == old(sent) + [StylePatch(fillValue, strokeValue, lineWidthValue)]
      ensures fillValue == old(fillValue) && strokeValue == old(strokeValue)
      ensures lineWidthValue == old(lineWidthValue)
    {
      sent := sent + [StylePatch(fillValue, strokeValue, lineWidthValue)];
    }

    /** An 'input' event on one of the fields: the field takes the new value, then the patch is sent. */
    method OnInput(fill: string, stroke: string, lineWidth: string)
      modifies this
      ensures fillValue == fill && strokeValue == stroke && lineWidthValue == lineWidth
      ensures sent == old(sent) + [StylePatch(fill, stroke, lineWidth)]
    {
      fillValue := fill;
      strokeValue := stroke;
      lineWidthValue := lineWidth;
      Apply();
    }

    /**
     * A click in the swatch area: ignored unless on a button; a non-empty
     * `data-fill` / `data-stroke` overwrites that field; then the patch is sent.
     */
    method OnSwatchClick(onButton: bool, dataFill: JsValue, dataStroke: JsValue)
      modifies this
      ensures !onButton ==> sent == old(sent) && fillValue == old(fillValue) && strokeValue == old(strokeValue)
      ensures onButton ==>
        fillValue == (if dataFill.Str? && dataFill.s != "" then dataFill.s else old(fillValue))
        && strokeValue == (if dataStroke.Str? && dataStroke.s != "" then dataStroke.s else old(strokeValue))
        && sent == old(sent) + [StylePatch(fillValue, strokeValue, lineWidthValue)]
      ensures lineWidthValue == old(lineWidthValue)
    {
      if !onButton {
        return;
      }
      if dataFill.Str? && TruthyString(dataFill.s) {
        fillValue := dataFill.s;
      }
      if dataStroke.Str? && TruthyString(dataStroke.s) {
        strokeValue := dataStroke.s;
      }
      Apply();
    }
  }
}
