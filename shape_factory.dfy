/** `createShape` and its defaults (src/factory/shapeFactory.ts). */
module ShapeFactory {
  import opened Wrappers
  import opened Js
  import opened Geometry
  import opened Shapes

  /** The optional style fields every option record may carry (undefined when omitted). */
  datatype BaseStyle = BaseStyle(lineColor: JsValue, fillColor: JsValue, lineWidth: JsValue)

  /**
   * The option records, discriminated by `kind`. `OtherKind` stands for a
   * value whose `kind` is none of the three (the `default` branch).
   */
  datatype ShapeOptions =
    | CircleOptions(center: Point, radius: real, style: BaseStyle)
    | RectangleOptions(topLeftCorner: Point, width: real, height: real, style: BaseStyle)
    | SquareOptions(topLeftCorner: Point, side: real, style: BaseStyle)
    | OtherKind(kind: string)

  /** `DEFAULTS`. */
  const DefaultLineColor: JsValue := Str("#111827")
  const DefaultFillColor: JsValue := Undefined
  const DefaultLineWidthValue: JsValue := Num(1.0)

  /**
   * The message thrown in the default branch: the template interpolates
   * `String(options)`, which for an object is "[object Object]".
   */
  const UnsupportedKind: string := "Unsupported shape kind: [object Object]"

  /**
   * `createShape`: fails only for an unknown kind or a negative circle
   * radius; otherwise yields a shape of the requested kind.
   */
  function CreateShape(options: ShapeOptions): (r: Result<Figure, string>)
    ensures r.Failure? <==> options.OtherKind? || (options.CircleOptions? && options.radius < 0.0)
    ensures r.Success? ==> (r.value.Circle? <==> options.CircleOptions?)
    ensures options.SquareOptions? ==> r.Success? && r.value.width == r.value.height == options.side
  {
    match options
    case CircleOptions(c, r, st) =>
      NewCircle(c, r, Coalesce(st.fillColor, DefaultFillColor),
                Coalesce(st.lineColor, DefaultLineColor), Coalesce(st.lineWidth, DefaultLineWidthValue))
    case RectangleOptions(tl, w, h, st) =>
      Success(NewRectangle(tl, w, h, Coalesce(st.fillColor, DefaultFillColor),
                           Coalesce(st.lineColor, DefaultLineColor), Coalesce(st.lineWidth, DefaultLineWidthValue)))
    case SquareOptions(tl, side, st) =>
      Success(NewSquare(tl, side, Coalesce(st.fillColor, DefaultFillColor),
                        Coalesce(st.lineColor, DefaultLineColor), Coalesce(st.lineWidth, DefaultLineWidthValue)))
    case OtherKind(_) => Failure(UnsupportedKind)
  }

  /** The style a shape receives: supplied fields win, undefined and null fall back to DEFAULTS. */
  function ResolvedStyle(st: BaseStyle): Style {
    Style(Coalesce(st.fillColor, Undefined), Coalesce(st.lineColor, Str("#111827")),
          Coalesce(st.lineWidth, Num(1.0)))
  }

  /** A circle option with a non-negative radius yields that circle; a negative one throws. */
  lemma CreateCircle(c: Point, r: real, st: BaseStyle)
    ensures r >= 0.0 ==> CreateShape(CircleOptions(c, r, st)) == Success(Circle(c, r, ResolvedStyle(st)))
    ensures r < 0.0 ==> CreateShape(CircleOptions(c, r, st)) == Failure("Radius must be >= 0")
  {
  }

  /** A rectangle option yields a rectangle with the given corner and sizes. */
  lemma CreateRectangle(tl: Point, w: real, h: real, st: BaseStyle)
    ensures CreateShape(RectangleOptions(tl, w, h, st)) == Success(Rectangle(tl, w, h, ResolvedStyle(st)))
  {
  }

  /** A square option yields a rectangle whose width and height both equal side. */
  lemma CreateSquare(tl: Point, side: real, st: BaseStyle)
    ensures CreateShape(SquareOptions(tl, side, st)) == Success(Rectangle(tl, side, side, ResolvedStyle(st)))
  {
  }

  /** With every style field omitted: fill undefined, line "#111827", width 1. */
  lemma OmittedStyleDefaults()
    ensures ResolvedStyle(BaseStyle(Undefined, Undefined, Undefined)) == Style(Undefined, Str("#111827"), Num(1.0))
  {
  }

  /** `??` keeps every supplied value that is not undefined or null, and only those. */
  lemma SuppliedStyleWins(st: BaseStyle)
    ensures !IsNullish(st.fillColor) ==> ResolvedStyle(st).fillColor == st.fillColor
    ensures !IsNullish(st.lineColor) ==> ResolvedStyle(st).lineColor == st.lineColor
    ensures !IsNullish(st.lineWidth) ==> ResolvedStyle(st).lineWidth == st.lineWidth
    ensures st.lineColor.Null? ==> ResolvedStyle(st).lineColor == Str("#111827")
  {
  }

  /** Any other kind raises "Unsupported shape kind". */
  lemma CreateOtherKind(kind: string)
    ensures CreateShape(OtherKind(kind)) == Failure(UnsupportedKind)
  {
  }
}
