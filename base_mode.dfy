/**
 * The common part of every mode (src/modes/BaseMode.ts): the attributes
 * object it was given, and the patch merge `updateAttributes`.
 *
 * An attributes object is a JavaScript object, modelled as the map from
 * its own keys to their values; a patch (`Partial<A>`) is the same. The
 * concrete modes hold their BaseMode part in a field (`base`) in place of
 * inheriting it.
 */
module BaseMode {
  import opened Js

  type Fields = map<string, JsValue>

  /** The keys the modes read. */
  const NameKey: string := "name"
  const CursorKey: string := "cursor"
  const PreviewFillColorKey: string := "previewFillColor"
  const PreviewStrokeColorKey: string := "previewStrokeColor"
  const PreviewLineWidthKey: string := "previewLineWidth"
  const FinalFillColorKey: string := "finalFillColor"
  const FinalStrokeColorKey: string := "finalStrokeColor"
  const FinalLineWidthKey: string := "finalLineWidth"

  /** Property read: a missing key reads as undefined. */
  function Lookup(fields: Fields, key: string): (v: JsValue)
    ensures key in fields ==> v == fields[key]
    ensures key !in fields ==> v.Undefined?
  {
    if key in fields then fields[key] else Undefined
  }

  /**
   * `Object.assign(target, patch)`: every key of the patch takes the
   * patch's value (an explicit undefined included); the other keys keep
   * theirs.
   */
  function Merge(fields: Fields, patch: Fields): (r: Fields)
    ensures r.Keys == fields.Keys + patch.Keys
    ensures forall k :: k in patch ==> r[k] == patch[k]
    ensures forall k :: k in fields && k !in patch ==> r[k] == fields[k]
  {
    fields + patch
  }

  /** An empty patch changes nothing. */
  lemma MergeEmpty(fields: Fields)
    ensures Merge(fields, map[]) == fields
  {
  }

  /** Applying the same patch twice equals applying it once. */
  lemma MergeIdempotent(fields: Fields, patch: Fields)
    ensures Merge(Merge(fields, patch), patch) == Merge(fields, patch)
  {
  }

  /** After the merge, every key reads as the patch says, or as before when the patch lacks it. */
  lemma MergeLookup(fields: Fields, patch: Fields, key: string)
    ensures Lookup(Merge(fields, patch), key) == if key in patch then patch[key] else Lookup(fields, key)
  {
  }

  /** The attributes object, shared by reference between its creator and the mode. */
  class Attributes {
    var fields: Fields

    constructor (fields: Fields)
      ensures this.fields == fields
    {
      this.fields := fields;
    }
  }

  class BaseMode {
    const attributes: Attributes

    /** The constructor keeps the given object itself, not a copy. */
    constructor (attributes: Attributes)
      ensures this.attributes == attributes
    {
      this.attributes := attributes;
    }

    /** `updateAttributes(patch)`: merges into the same object in place. */
    method UpdateAttributes(patch: Fields)
      modifies attributes
      ensures attributes.fields == Merge(old(attributes.fields), patch)
    {
      attributes.fields := attributes.fields + patch;
    }

    /** The cursor a mode sets on entry: `attributes.cursor ?? fallback`. */
    function Cursor(fallback: string): (c: JsValue)
      reads attributes
      ensures IsNullish(Lookup(attributes.fields, CursorKey)) ==> c == Str(fallback)
      ensures !IsNullish(Lookup(attributes.fields, CursorKey)) ==> c == attributes.fields[CursorKey]
    {
      Coalesce(Lookup(attributes.fields, CursorKey), Str(fallback))
    }

    function PreviewFillColor(): JsValue reads attributes {
      Lookup(attributes.fields, PreviewFillColorKey)
    }

    function PreviewStrokeColor(): JsValue reads attributes {
      Lookup(attributes.fields, PreviewStrokeColorKey)
    }

    function PreviewLineWidth(): JsValue reads attributes {
      Lookup(attributes.fields, PreviewLineWidthKey)
    }

    function FinalFillColor(): JsValue reads attributes {
      Lookup(attributes.fields, FinalFillColorKey)
    }

    function FinalStrokeColor(): JsValue reads attributes {
      Lookup(attributes.fields, FinalStrokeColorKey)
    }

    function FinalLineWidth(): JsValue reads attributes {
      Lookup(attributes.fields, FinalLineWidthKey)
    }
  }
}
