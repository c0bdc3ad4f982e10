/** What a UserDefaults store can hold: the property-list shapes, plus the
    null marker that an absent optional converts to. */
module NativeValues {

  /** A value in the store's own representation. Floating-point numbers are
      kept as opaque bit patterns, a date as a count of seconds, binary data
      as bytes. `NNull` is what `Optional.none` becomes as `Any`; it is not a
      property-list value. */
  datatype Native =
    | NBool(b: bool)
    | NInt(i: int)
    | NFloat(f: bv32)
    | NDouble(d: bv64)
    | NString(s: string)
    | NData(bytes: seq<bv8>)
    | NDate(t: int)
    | NArray(elems: seq<Native>)
    | NDict(entries: map<string, Native>)
    | NNull

  /** Why a conversion from the store's representation failed; in the source
      each of these is a crash (`as!`, `fatalError`). */
  datatype ConvError =
    | ShapeMismatch   // the stored value is not of the shape the type expects
    | UnknownTag      // a tagged string starts with no known tag
    | ElementFailed   // some element of an array or dictionary failed to convert

  /** A value the store can persist: no null marker anywhere inside it. */
  predicate IsPropertyList(n: Native) {
    match n
    case NNull => false
    case NArray(es) => forall i :: 0 <= i < |es| ==> IsPropertyList(es[i])
    case NDict(m) => forall k :: k in m ==> IsPropertyList(m[k])
    case _ => true
  }
}
