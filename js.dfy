/**
 * The runtime values JavaScript stores in the loosely typed places of the
 * source: optional style fields, mode attribute objects and their patches.
 */
module Js {
  datatype JsValue =
    | Undefined
    | Null
    | Str(s: string)
    | Num(n: real)
    | NaN

  /** True for `undefined` and `null`, the two values `??` replaces. */
  predicate IsNullish(v: JsValue) {
    v.Undefined? || v.Null?
  }

  /** `v ?? fallback`: replaces only undefined and null. */
  function Coalesce(v: JsValue, fallback: JsValue): (r: JsValue)
    ensures IsNullish(v) ==> r == fallback
    ensures !IsNullish(v) ==> r == v
  {
    if IsNullish(v) then fallback else v
  }

  /**
   * A parameter declared with a default value (`lineWidth: number = 1`):
   * the default applies when the argument is undefined, and only then
   * (an explicit null is kept).
   */
  function DefaultParam(v: JsValue, default: JsValue): (r: JsValue)
    ensures v.Undefined? ==> r == default
    ensures !v.Undefined? ==> r == v
  {
    if v.Undefined? then default else v
  }

  /** JavaScript truthiness of a string: only the empty string is falsy. */
  predicate TruthyString(s: string) {
    s != ""
  }
}
