/** The `UserDefaultsConvertible` capability and its conformances: identity
    for the types the store holds natively, element-wise for arrays, value-wise
    for string-keyed dictionaries, and unwrapping for optionals; plus the zero
    defaults of `UserDefaultsConvertibleWithDefaultValue`. */
module Convertible {
  import opened Wrappers
  import opened NativeValues

  /** A conformance of `T` to the capability: `toNative` is the value's
      `userDefaultsValue`, `create` is `T.create(from:)`, with the source's
      crashing casts turned into an error result. */
  datatype Conv<!T> = Conv(toNative: T -> Native, create: Native -> Result<T, ConvError>)

  /** Every value whose native form the store can persist comes back unchanged. */
  ghost predicate RoundTrips<T(!new)>(c: Conv<T>) {
    forall x :: IsPropertyList(c.toNative(x)) ==> c.create(c.toNative(x)) == Ok(x)
  }

  /** Every native value that converts at all is the native form of what it
      converts to: no two stored values read as the same value. */
  ghost predicate Canonical<T>(c: Conv<T>) {
    forall n :: c.create(n).Ok? ==> c.toNative(c.create(n).value) == n
  }

  /** Every value of the type has a native form the store can persist. */
  ghost predicate AlwaysStorable<T(!new)>(c: Conv<T>) {
    forall x :: IsPropertyList(c.toNative(x))
  }

  // Swift primitives: identity conversion, and a checked cast back (`as! Self`).

  const BoolConv: Conv<bool> :=
    Conv(b => NBool(b), (n: Native) => if n.NBool? then Ok(n.b) else Err(ShapeMismatch))
  const IntConv: Conv<int> :=
    Conv(i => NInt(i), (n: Native) => if n.NInt? then Ok(n.i) else Err(ShapeMismatch))
  const FloatConv: Conv<bv32> :=
    Conv(f => NFloat(f), (n: Native) => if n.NFloat? then Ok(n.f) else Err(ShapeMismatch))
  const DoubleConv: Conv<bv64> :=
    Conv(d => NDouble(d), (n: Native) => if n.NDouble? then Ok(n.d) else Err(ShapeMismatch))
  const StringConv: Conv<string> :=
    Conv(s => NString(s), (n: Native) => if n.NString? then Ok(n.s) else Err(ShapeMismatch))
  const DataConv: Conv<seq<bv8>> :=
    Conv(d => NData(d), (n: Native) => if n.NData? then Ok(n.bytes) else Err(ShapeMismatch))
  const DateConv: Conv<int> :=
    Conv(t => NDate(t), (n: Native) => if n.NDate? then Ok(n.t) else Err(ShapeMismatch))

  /** Each primitive converts by identity: it round-trips, reads back only its
      own native form, and is always storable. */
  lemma PrimitivesConvertByIdentity()
    ensures RoundTrips(BoolConv) && Canonical(BoolConv) && AlwaysStorable(BoolConv)
    ensures RoundTrips(IntConv) && Canonical(IntConv) && AlwaysStorable(IntConv)
    ensures RoundTrips(FloatConv) && Canonical(FloatConv) && AlwaysStorable(FloatConv)
    ensures RoundTrips(DoubleConv) && Canonical(DoubleConv) && AlwaysStorable(DoubleConv)
    ensures RoundTrips(StringConv) && Canonical(StringConv) && AlwaysStorable(StringConv)
    ensures RoundTrips(DataConv) && Canonical(DataConv) && AlwaysStorable(DataConv)
    ensures RoundTrips(DateConv) && Canonical(DateConv) && AlwaysStorable(DateConv)
  {
  }

  /** A stored value of another shape is a failure, never a silent default. */
  lemma PrimitivesRejectOtherShapes(n: Native)
    ensures !n.NBool? ==> BoolConv.create(n) == Err(ShapeMismatch)
    ensures !n.NInt? ==> IntConv.create(n) == Err(ShapeMismatch)
    ensures !n.NFloat? ==> FloatConv.create(n) == Err(ShapeMismatch)
    ensures !n.NDouble? ==> DoubleConv.create(n) == Err(ShapeMismatch)
    ensures !n.NString? ==> StringConv.create(n) == Err(ShapeMismatch)
    ensures !n.NData? ==> DataConv.create(n) == Err(ShapeMismatch)
    ensures !n.NDate? ==> DateConv.create(n) == Err(ShapeMismatch)
  {
  }

  // Arrays: `map` over the elements in both directions.

  /** The native elements of an array, in order. */
  function NativeElements<T>(c: Conv<T>, xs: seq<T>): (ns: seq<Native>)
    ensures |ns| == |xs|
    ensures forall i :: 0 <= i < |xs| ==> ns[i] == c.toNative(xs[i])
  {
    if xs == [] then [] else [c.toNative(xs[0])] + NativeElements(c, xs[1..])
  }

  /** Converts native elements one by one, left to right; the first failure
      fails the whole conversion, so no partial array is ever returned. */
  function CreateElements<T>(c: Conv<T>, ns: seq<Native>): (r: Result<seq<T>, ConvError>)
    ensures r.Ok? <==> forall i :: 0 <= i < |ns| ==> c.create(ns[i]).Ok?
    ensures r.Err? ==> r.error == ElementFailed
    ensures r.Ok? ==> |r.value| == |ns|
    ensures r.Ok? ==> forall i :: 0 <= i < |ns| ==> c.create(ns[i]) == Ok(r.value[i])
  {
    if ns == [] then Ok([])
    else match c.create(ns[0])
      case Err(_) => Err(ElementFailed)
      case Ok(x) =>
        match CreateElements(c, ns[1..])
        case Err(e) => Err(e)
        case Ok(xs) => Ok([x] + xs)
  }

  /** `create(from:)` of an array: anything but a native array is rejected
      (`as! [Any]`), and an array converts only if every element does. */
  function CreateArray<T>(c: Conv<T>, n: Native): (r: Result<seq<T>, ConvError>)
    ensures !n.NArray? ==> r == Err(ShapeMismatch)
    ensures n.NArray? ==> (r.Ok? <==> forall i :: 0 <= i < |n.elems| ==> c.create(n.elems[i]).Ok?)
  {
    if n.NArray? then CreateElements(c, n.elems) else Err(ShapeMismatch)
  }

  /** The `Array` conformance: an array is stored as a native array of the
      same length, and anything but a native array is rejected. */
  function ArrayConv<T(!new)>(c: Conv<T>): (a: Conv<seq<T>>)
    ensures forall xs :: a.toNative(xs).NArray? && |a.toNative(xs).elems| == |xs|
    ensures forall n: Native :: !n.NArray? ==> a.create(n) == Err(ShapeMismatch)
  {
    Conv(xs => NArray(NativeElements(c, xs)), n => CreateArray(c, n))
  }

  /** Array conversion round-trips whenever its element conversion does. */
  lemma ArrayConvRoundTrips<T(!new)>(c: Conv<T>)
    requires RoundTrips(c)
    ensures RoundTrips(ArrayConv(c))
  {
    var a := ArrayConv(c);
    forall xs | IsPropertyList(a.toNative(xs))
      ensures a.create(a.toNative(xs)) == Ok(xs)
    {
      var ns := NativeElements(c, xs);
      assert forall i :: 0 <= i < |ns| ==> IsPropertyList(ns[i]);
      assert forall i :: 0 <= i < |ns| ==> c.create(ns[i]) == Ok(xs[i]);
      var r := CreateElements(c, ns);
      assert a.create(a.toNative(xs)) == r;
      assert r.value == xs;
    }
  }

  /** Array conversion is canonical whenever its element conversion is. */
  lemma ArrayConvCanonical<T(!new)>(c: Conv<T>)
    requires Canonical(c)
    ensures Canonical(ArrayConv(c))
  {
    var a := ArrayConv(c);
    forall n | a.create(n).Ok?
      ensures a.toNative(a.create(n).value) == n
    {
      var ys := a.create(n).value;
      assert NativeElements(c, ys) == n.elems;
    }
  }

  /** Arrays of an always-storable type are always storable. */
  lemma ArrayConvStorable<T(!new)>(c: Conv<T>)
    requires AlwaysStorable(c)
    ensures AlwaysStorable(ArrayConv(c))
  {
    forall xs ensures IsPropertyList(ArrayConv(c).toNative(xs)) {
      var ns := NativeElements(c, xs);
      assert forall i :: 0 <= i < |ns| ==> IsPropertyList(ns[i]);
    }
  }

  // String-keyed dictionaries: `mapValues` in both directions.

  /** The native form of a dictionary: the same keys, each value converted. */
  function NativeValuesOf<T>(c: Conv<T>, m: map<string, T>): (nm: map<string, Native>)
    ensures nm.Keys == m.Keys
    ensures forall k :: k in m ==> nm[k] == c.toNative(m[k])
  {
    map k | k in m :: c.toNative(m[k])
  }

  /** Converts every value; if any fails the whole dictionary fails. */
  function CreateDict<T>(c: Conv<T>, n: Native): (r: Result<map<string, T>, ConvError>)
    ensures !n.NDict? ==> r == Err(ShapeMismatch)
    ensures n.NDict? ==> (r.Ok? <==> forall k :: k in n.entries ==> c.create(n.entries[k]).Ok?)
    ensures n.NDict? && r.Err? ==> r.error == ElementFailed
    ensures r.Ok? ==> r.value.Keys == n.entries.Keys
    ensures r.Ok? ==> forall k :: k in r.value ==> c.create(n.entries[k]) == Ok(r.value[k])
  {
    if !n.NDict? then Err(ShapeMismatch)
    else if forall k :: k in n.entries ==> c.create(n.entries[k]).Ok? then
      Ok(map k | k in n.entries :: c.create(n.entries[k]).value)
    else Err(ElementFailed)
  }

  /** The `Dictionary` conformance: a dictionary is stored as a native
      dictionary with the same keys, and anything else is rejected. */
  function DictConv<T(!new)>(c: Conv<T>): (d: Conv<map<string, T>>)
    ensures forall m :: d.toNative(m).NDict? && d.toNative(m).entries.Keys == m.Keys
    ensures forall n: Native :: !n.NDict? ==> d.create(n) == Err(ShapeMismatch)
  {
    Conv(m => NDict(NativeValuesOf(c, m)), n => CreateDict(c, n))
  }

  /** Dictionary conversion round-trips whenever its value conversion does. */
  lemma DictConvRoundTrips<T(!new)>(c: Conv<T>)
    requires RoundTrips(c)
    ensures RoundTrips(DictConv(c))
  {
    var d := DictConv(c);
    forall m | IsPropertyList(d.toNative(m))
      ensures d.create(d.toNative(m)) == Ok(m)
    {
      var nm := NativeValuesOf(c, m);
      assert forall k :: k in nm ==> IsPropertyList(nm[k]);
      assert forall k :: k in m ==> c.create(nm[k]) == Ok(m[k]);
      var r := CreateDict(c, NDict(nm));
      assert d.create(d.toNative(m)) == r;
      assert r.value == m;
    }
  }

  /** Dictionary conversion is canonical whenever its value conversion is. */
  lemma DictConvCanonical<T(!new)>(c: Conv<T>)
    requires Canonical(c)
    ensures Canonical(DictConv(c))
  {
    var d := DictConv(c);
    forall n | d.create(n).Ok?
      ensures d.toNative(d.create(n).value) == n
    {
      var m := d.create(n).value;
      assert NativeValuesOf(c, m) == n.entries;
    }
  }

  /** Dictionaries of an always-storable type are always storable. */
  lemma DictConvStorable<T(!new)>(c: Conv<T>)
    requires AlwaysStorable(c)
    ensures AlwaysStorable(DictConv(c))
  {
    forall m ensures IsPropertyList(DictConv(c).toNative(m)) {
      var nm := NativeValuesOf(c, m);
      assert forall k :: k in nm ==> IsPropertyList(nm[k]);
    }
  }

  // Optionals: none becomes the null marker, some(v) becomes v's native form.

  /** `AnyOptional.isNone`, applied to a converted value: it is the null
      marker that `Optional.none` becomes. */
  predicate IsNone(n: Native)
    ensures IsNone(n) ==> !IsPropertyList(n)
  {
    n.NNull?
  }

  /** `Optional.userDefaultsValue`: none is the null marker, and some(x) is
      exactly x's native form, so the marker also comes out of a `some`
      whose wrapped value converts to it. */
  function OptionalToNative<T>(c: Conv<T>, o: Option<T>): (n: Native)
    ensures o.Some? ==> n == c.toNative(o.value)
    ensures IsNone(n) <==> o.None? || IsNone(c.toNative(o.value))
  {
    match o
    case None => NNull
    case Some(x) => c.toNative(x)
  }

  /** A present stored value always reads as `some`: reading `none` comes
      only from an absent key, never from a conversion. */
  function OptionalCreate<T>(c: Conv<T>, n: Native): (r: Result<Option<T>, ConvError>)
    ensures r.Ok? <==> c.create(n).Ok?
    ensures r.Ok? ==> r.value == Some(c.create(n).value)
    ensures r.Err? ==> r.error == c.create(n).error
  {
    match c.create(n)
    case Ok(x) => Ok(Some(x))
    case Err(e) => Err(e)
  }

  /** The `Optional` conformance: none converts to the null marker, and a
      stored value never reads as none. */
  function OptionalConv<T(!new)>(c: Conv<T>): (o: Conv<Option<T>>)
    ensures IsNone(o.toNative(None))
    ensures forall x :: o.toNative(Some(x)) == c.toNative(x)
    ensures forall n :: o.create(n).Ok? ==> o.create(n).value.Some?
  {
    Conv(o => OptionalToNative(c, o), n => OptionalCreate(c, n))
  }

  /** Optional conversion round-trips and is canonical whenever the wrapped
      conversion is; `none` is never storable. */
  lemma OptionalConvPreserves<T(!new)>(c: Conv<T>)
    ensures RoundTrips(c) ==> RoundTrips(OptionalConv(c))
    ensures Canonical(c) ==> Canonical(OptionalConv(c))
    ensures !IsPropertyList(OptionalConv(c).toNative(None))
    ensures AlwaysStorable(c) ==> forall x :: IsPropertyList(OptionalConv(c).toNative(Some(x)))
  {
  }

  /** An optional converts to the null marker exactly when it is `none`, or a
      `some` whose wrapped value itself converts to the null marker (a nested
      optional). A storable conversion never yields the marker. */
  lemma OptionalIsNoneExactly<T(!new)>(c: Conv<T>, o: Option<T>)
    ensures IsNone(OptionalConv(c).toNative(o)) <==> o.None? || IsNone(c.toNative(o.value))
    ensures AlwaysStorable(c) ==> (IsNone(OptionalConv(c).toNative(o)) <==> o.None?)
  {
    if AlwaysStorable(c) && o.Some? {
      assert IsPropertyList(c.toNative(o.value));
    }
  }

  // Defaults (`UserDefaultsConvertibleWithDefaultValue`).

  /** A conformance together with the type's zero default. */
  datatype Defaultable<!T> = Defaultable(conv: Conv<T>, defaultValue: T)

  const BoolDefaultable: Defaultable<bool> := Defaultable(BoolConv, false)
  const IntDefaultable: Defaultable<int> := Defaultable(IntConv, 0)
  const FloatDefaultable: Defaultable<bv32> := Defaultable(FloatConv, 0)
  const DoubleDefaultable: Defaultable<bv64> := Defaultable(DoubleConv, 0)

  function OptionalDefaultable<T(!new)>(c: Conv<T>): Defaultable<Option<T>> {
    Defaultable(OptionalConv(c), None)
  }

  function ArrayDefaultable<T(!new)>(c: Conv<T>): Defaultable<seq<T>> {
    Defaultable(ArrayConv(c), [])
  }

  function DictDefaultable<T(!new)>(c: Conv<T>): Defaultable<map<string, T>> {
    Defaultable(DictConv(c), map[])
  }

  /** What each default is stored as: zero for the numbers, false for Bool,
      the empty container for arrays and dictionaries, and the null marker
      (a delete) for optionals. */
  lemma DefaultsInNativeForm<T(!new)>(c: Conv<T>)
    ensures BoolDefaultable.conv.toNative(BoolDefaultable.defaultValue) == NBool(false)
    ensures IntDefaultable.conv.toNative(IntDefaultable.defaultValue) == NInt(0)
    ensures FloatDefaultable.conv.toNative(FloatDefaultable.defaultValue) == NFloat(0)
    ensures DoubleDefaultable.conv.toNative(DoubleDefaultable.defaultValue) == NDouble(0)
    ensures OptionalDefaultable(c).conv.toNative(OptionalDefaultable(c).defaultValue) == NNull
    ensures ArrayDefaultable(c).conv.toNative(ArrayDefaultable(c).defaultValue) == NArray([])
    ensures DictDefaultable(c).conv.toNative(DictDefaultable(c).defaultValue) == NDict(map[])
  {
  }
}
