# UserDefaultPropertyWrapper in Dafny

A model of the `@UserDefault` property wrapper: typed, default-aware access to
a flat, string-keyed `UserDefaults` store whose own representation is limited
to property-list shapes.

- `NativeValues` (native.dfy): the store's representation, `Native` — Bool as
  `bool`, Int as `int`, Float and Double as opaque bit patterns (`bv32`,
  `bv64`), String, Data as bytes, Date as an integer number of seconds, arrays, string-keyed
  dictionaries — plus
  `NNull`, the marker that `Optional.none` becomes as `Any`.
  `IsPropertyList` holds of a value with no null marker anywhere in it.
- `Convertible` (convertible.dfy): the `UserDefaultsConvertible` protocol as a
  record `Conv<T>` of `toNative` (`userDefaultsValue`) and `create`
  (`create(from:)`). Each conformance is a value of that record:
  - the seven primitives convert by identity;
  - `ArrayConv(c)` converts element-wise (`map`);
  - `DictConv(c)` converts value-wise (`mapValues`);
  - `OptionalConv(c)` maps none to the null marker and some(v) to v's form.
  The source's `as!` casts crash on a wrong shape. Here they return
  `Err(ShapeMismatch)`, and a failing element fails its whole container with
  `Err(ElementFailed)`.
  Three predicates state what a conformance guarantees:
  - `RoundTrips`: every value whose native form is storable comes back.
  - `Canonical`: every native value that converts is the native form of its
    result.
  - `AlwaysStorable`: every value of the type is storable.
  Lemmas prove the three for the primitives. Arrays and dictionaries preserve
  all three; optionals preserve `RoundTrips` and `Canonical`, but never
  `AlwaysStorable`, because none is not storable. `Defaultable<T>` pairs a conformance with the
  zero default of `UserDefaultsConvertibleWithDefaultValue`.
- `Store` (store.dfy): `Defaults`, an in-memory stand-in for a `UserDefaults`
  instance: a `map<string, Native>` with `Object` and `Set`; setting nil
  removes the key.
- `Accessor` (user_default.dfy): the class `UserDefault<T>`. It holds a key,
  a default, a conformance and a reference to the store. It has:
  - the two initialisers, one of them deriving the default from `Defaultable`;
  - the `wrappedValue` getter `Get` and setter `Set`.
  `Read`, `Write` and `SetUp` are the functions on the store's entries that
  specify them. Lemmas relate writes to later reads.
- `Activities` (activity.dfy): the example's `Activity` enum and its
  tagged-string encoding.
- `ExampleSettings` (settings.dfy): the example's `Settings` and
  `ActivityStorage` declarations, and scenarios that read and write them over
  an empty store. The Swift property `array` is `arrayValue` here, because
  `array` is a Dafny keyword.

Behaviour of the code worth noting:
- Only Bool, Int, Float, Double, Optional, Array and Dictionary have a type
  default. String, Data and Date have none, so the example declares
  `stringValue` with an explicit `""`.
- A nested optional `some(none)` converts to the null marker. Writing it
  deletes the key, and a later read returns the accessor's default
  (`ReadAfterNoneWrite`, `OptionalIsNoneExactly`).
- The tagged-string codec strips exactly one tag character. So a payload that
  itself starts with `r` or `w` still decodes correctly (`DecodeEncode` holds
  for every payload). Prefix collisions are not a problem for this encoding.

## Model

| member | source | states |
|---|---|---|
| Convertible.PrimitivesConvertByIdentity | Source/UserDefaultPropertyWrapper.swift:64-79 | Bool, String, Int, Float, Double, Data and Date convert by identity: each round-trips, reads back only its own native form, and is always storable |
| Convertible.PrimitivesRejectOtherShapes | Source/UserDefaultPropertyWrapper.swift:68-70 | a stored value of another shape is `ShapeMismatch` for every primitive, never a default |
| Convertible.NativeElements | Source/UserDefaultPropertyWrapper.swift:87-91 | the native array has the same length, and element i is element i's native value |
| Convertible.CreateElements | Source/UserDefaultPropertyWrapper.swift:83-85 | an array converts iff every element converts; the result has the same length and element i is element i's conversion; otherwise `ElementFailed`, with no partial result |
| Convertible.CreateArray | Source/UserDefaultPropertyWrapper.swift:83-85 | a non-array is `ShapeMismatch`; an array converts iff all its elements do |
| Convertible.ArrayConv | Source/UserDefaultPropertyWrapper.swift:82-92 | the `Array` conformance stores an array as a native array of the same length, and rejects anything but a native array with `ShapeMismatch` |
| Convertible.ArrayConvRoundTrips | Source/UserDefaultPropertyWrapper.swift:82-92 | if the element conversion round-trips, so does the array conversion: `create` inverts element-wise `map` |
| Convertible.ArrayConvCanonical | Source/UserDefaultPropertyWrapper.swift:82-92 | if the element conversion is canonical, every array that converts is the native form of its result |
| Convertible.ArrayConvStorable | Source/UserDefaultPropertyWrapper.swift:87-91 | arrays of an always-storable element type are always storable |
| Convertible.NativeValuesOf | Source/UserDefaultPropertyWrapper.swift:101-103 | the native dictionary has exactly the same keys, each value converted |
| Convertible.CreateDict | Source/UserDefaultPropertyWrapper.swift:97-99 | a non-dictionary is `ShapeMismatch`; a dictionary converts iff every value does, keeping exactly its key set, otherwise `ElementFailed` |
| Convertible.DictConv | Source/UserDefaultPropertyWrapper.swift:95-104 | the `Dictionary` conformance stores a dictionary as a native dictionary with exactly the same keys, and rejects anything but a native dictionary with `ShapeMismatch` |
| Convertible.DictConvRoundTrips | Source/UserDefaultPropertyWrapper.swift:95-104 | if the value conversion round-trips, so does the dictionary conversion, keys and values alike |
| Convertible.DictConvCanonical | Source/UserDefaultPropertyWrapper.swift:95-104 | if the value conversion is canonical, every dictionary that converts is the native form of its result |
| Convertible.DictConvStorable | Source/UserDefaultPropertyWrapper.swift:101-103 | dictionaries of an always-storable value type are always storable |
| Convertible.IsNone | Source/UserDefaultPropertyWrapper.swift:45-56 | `isNone`, which the setter tests at line 36, holds only of the null marker, which is never a storable value |
| Convertible.OptionalToNative | Source/UserDefaultPropertyWrapper.swift:108-115 | none converts to the null marker and some(x) to exactly x's native form, so the result is the marker iff the optional is none or wraps a value that converts to it |
| Convertible.OptionalCreate | Source/UserDefaultPropertyWrapper.swift:117-119 | a present value converts to `some` of the wrapped conversion, or fails exactly as it does; never to `none` |
| Convertible.OptionalConv | Source/UserDefaultPropertyWrapper.swift:107-120 | the `Optional` conformance: none converts to the null marker, some(x) to x's native form, and a stored value never reads as none |
| Convertible.OptionalConvPreserves | Source/UserDefaultPropertyWrapper.swift:107-120 | optional conversion round-trips and is canonical when the wrapped one is; `none` is never storable; `some` of an always-storable type is storable |
| Convertible.OptionalIsNoneExactly | Source/UserDefaultPropertyWrapper.swift:108-115 | the setter's `isNone` test (lines 36 and 45-56) holds of an optional's converted value iff it is `none` or wraps a value that itself converts to none; for an always-storable wrapped type, iff it is `none` |
| Convertible.DefaultsInNativeForm | Source/UserDefaultPropertyWrapper.swift:144-164 | the type defaults are false, 0, 0, 0, none (stored as the null marker, i.e. a delete), the empty array and the empty dictionary |
| Accessor.Read | Source/UserDefaultPropertyWrapper.swift:29-32 | a read of an absent key returns the default; a read fails only when the key is present and its stored value does not convert |
| Accessor.SetUp | Source/UserDefaultPropertyWrapper.swift:22-24 | without `setupDefault`, or with the key present, construction leaves the store's entries exactly as they were; with `setupDefault` and the key absent, the store then holds the default's native form at the key, or still lacks the key when the default converts to none |
| Accessor.Write | Source/UserDefaultPropertyWrapper.swift:34-41 | a write removes the key iff the converted value is none, otherwise stores it; every other key keeps its entry |
| Accessor.UserDefault.constructor | Source/UserDefaultPropertyWrapper.swift:17-25 | keeps key, default and store; writes the default through only when `setupDefault` is set and the key is absent |
| Accessor.UserDefault.WithTypeDefault | Source/UserDefaultPropertyWrapper.swift:138-141 | the default-deriving initialiser uses the type's `defaultValue` and conformance |
| Accessor.UserDefault.SetUpDefault | Source/UserDefaultPropertyWrapper.swift:22-24 | the store after the eager-default step is `SetUp` of the store before |
| Accessor.UserDefault.Get | Source/UserDefaultPropertyWrapper.swift:28-33 | the read returns the default when the key is absent, else the stored value's conversion, and changes nothing |
| Accessor.UserDefault.Set | Source/UserDefaultPropertyWrapper.swift:34-41 | the store after a write is `Write` of the old store and the new value's native form |
| Accessor.ReadAfterWrite | Source/UserDefaultPropertyWrapper.swift:27-42 | for a round-tripping conformance, reading after writing a storable value returns that value |
| Accessor.ReadAfterNoneWrite | Source/UserDefaultPropertyWrapper.swift:35-37 | writing a value that converts to none deletes the key, and the next read returns the default, not a stored null |
| Accessor.ReadOtherKeyAfterWrite | Source/UserDefaultPropertyWrapper.swift:34-41 | a write to one key does not change what any other key reads |
| Accessor.LastWriteWins | Source/UserDefaultPropertyWrapper.swift:34-41 | two writes to one key leave the store as the second alone would |
| Accessor.ReadAfterSetUp | Source/UserDefaultPropertyWrapper.swift:22-24 | for every conformance and default: without `setupDefault`, or with the key present, construction leaves the store unchanged, and without `setupDefault` an absent key reads the default; with `setupDefault` and an absent key, a read right after construction returns the default when the conformance round-trips and the default is storable or converts to none |
| Activities.Encode | Example/Example/Settings.swift:90-97 | the encoding is never empty, its first character is `r` iff reading and `w` iff watching, and the rest is the payload |
| Activities.Decode | Example/Example/Settings.swift:99-109 | decoding fails with `UnknownTag` iff the string is empty or starts with neither `r` nor `w`; every string that decodes is the encoding of its result |
| Activities.DecodeEncode | Example/Example/Settings.swift:89-109 | decoding an encoded activity gives it back, for every payload |
| Activities.EncodeDecode | Example/Example/Settings.swift:99-109 | every string that decodes is the encoding of its result |
| Activities.DecodeCases | Example/Example/Settings.swift:99-109 | decoding fails (`UnknownTag`) iff the string is empty or starts with neither tag; `r` gives reading and `w` gives watching of the rest |
| Activities.ActivityConv | Example/Example/Settings.swift:89-113 | the `Activity` conformance stores an activity as the native string of its encoding, and rejects a stored non-string with `ShapeMismatch` (`as! String`) |
| Activities.ActivityConvConverts | Example/Example/Settings.swift:89-113 | the activity conformance round-trips, is canonical and always storable, and a non-string is `ShapeMismatch` |
| ExampleSettings.Settings.constructor | Example/Example/Settings.swift:11-52 | each declared property has its key, type and default (type-derived or explicit), and declaring them leaves the store unchanged |
| ExampleSettings.ActivityStorage.constructor | Example/Example/Settings.swift:115-118 | `activity` is an optional activity keyed `activity` with default none |
| ExampleSettings.IntValueWithDefaultScenario | Example/Example/Settings.swift:23-24 | on an empty store the property reads 451; after writing 7 the store holds the integer 7 and the property reads 7 |
| ExampleSettings.ArrayOnEmptyStore | Example/Example/Settings.swift:44-45 | on an empty store `array` reads `[1, 9, 6, 1]` |
| ExampleSettings.ArrayOfArrayReadBack | Example/Example/Settings.swift:47-48 | any `[[Int]]` written under `arrayOfArray` reads back unchanged |
| ExampleSettings.ArrayOfArrayAfterWrite | Example/Example/Settings.swift:69-71 | after writing `[[1], [2, 3]]`, `arrayOfArray` reads it back |
| ExampleSettings.OptionalStringScenario | Example/Example/Settings.swift:35-36 | writing "hi" stores the native string; writing none removes the key; the property then reads none |
| ExampleSettings.ActivityOnEmptyStore | Example/Example/Settings.swift:115-118 | a fresh `ActivityStorage` over an empty store reads none |
| ExampleSettings.ActivityReadBack | Example/Example/Settings.swift:115-118 | any activity written under `activity` is stored as its tagged string and reads back as `some` of itself |
| ExampleSettings.ActivityAfterWrite | Example/Example/Settings.swift:85-86 | writing reading("Hearts of Three") stores "rHearts of Three", and a new `ActivityStorage` reads it back |

## Left out

- The `Codable` fallback through `PropertyListEncoder`/`PropertyListDecoder` (Source/UserDefaultPropertyWrapper.swift:123-131). Its binary format belongs to Foundation and is not visible. The `User` record and `UsersSource` (Example/Example/Settings.swift:54-67) use that fallback and are left out with it, and so is the users part of `test()` (lines 73-83).
- Foundation's `UserDefaults`: persistence, suite names and the `.standard` and `Settings.shared` singletons. The store is a `Defaults` object passed to each accessor.
- Foundation's NSNumber bridging. A real store may read a stored Bool as an Int, for example. The model matches shapes strictly.
- Writing a container with a nil nested inside it: Foundation refuses such a value, since it is not a property list. The model stores the null marker inside the container, and a later read of it fails.
- Float and Double arithmetic and comparison: they are opaque bit patterns, so their round trip is bitwise identity.
- Date and Data internals: a date is an integer number of seconds and `Date.distantFuture` is 63113904000; data is a byte sequence.
- Activities.DecodeEncode: strings are sequences of Unicode scalars, and every member of the activity codec (`Decode`, `DecodeEncode`, `EncodeDecode`, `DecodeCases`, `ActivityConvConverts`, `ActivityReadBack`) rests on that reading. Swift's `hasPrefix` and `removeFirst` (Example/Example/Settings.swift:101-106) work on grapheme clusters. A payload that starts with any grapheme-extending scalar merges with the tag into one character: a combining mark, a spacing mark, a zero-width joiner, a variation selector or an emoji modifier. For example, `.reading(book: "\u{301}x")` encodes as `"r\u{301}x"`, `hasPrefix("r")` is false, and Swift reaches `fatalError()`. The model decodes it as that reading.
- Convertible.IntConv and the other `Int` uses: Swift's `Int` is 64 bits wide, and Dafny's `int` is unbounded. No arithmetic is done on these values, so no wrap-around is lost. The model still admits integers outside the 64-bit range that the source cannot hold.
- Which element made a container conversion fail: the source crashes, and the model reports only `ElementFailed`.
- Two accessors racing to set up the same absent key: concurrency is out of scope. `LastWriteWins` states the sequential outcome.
- The `print` calls in `test()`.
- Protocol dispatch: conformances are explicit `Conv` values handed to each accessor. Swift picks them by type.
