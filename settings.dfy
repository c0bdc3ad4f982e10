/** The example app's declared settings: each property is a `UserDefault`
    accessor over the standard store, with its key, type and default. */
module ExampleSettings {
  import opened Wrappers
  import opened NativeValues
  import opened Convertible
  import opened Store
  import opened Accessor
  import opened Activities

  /** `Date.distantFuture`, in seconds since the reference date. */
  const DistantFuture: int := 63113904000

  class Settings {
    const boolValue: UserDefault<bool>
    const boolValueWithDefaultValue: UserDefault<bool>
    const intValue: UserDefault<int>
    const intValueWithDefaultValue: UserDefault<int>
    const doubleValue: UserDefault<bv64>
    const floatValue: UserDefault<bv32>
    const stringValue: UserDefault<string>
    const optionalStringValue: UserDefault<Option<string>>
    const dateValue: UserDefault<int>
    const optionalDataValue: UserDefault<Option<seq<bv8>>>
    const arrayValue: UserDefault<seq<int>>
    const arrayOfArray: UserDefault<seq<seq<int>>>
    const dict: UserDefault<map<string, int>>

    /** Declares every property over `standard`; none sets up its default,
        so the store is left as it was. */
    constructor (standard: Defaults)
      modifies standard
      ensures standard.entries == old(standard.entries)
      ensures boolValue.key == "boolValue" && boolValue.defaultValue == false
      ensures boolValue.conv == BoolConv && boolValue.defaults == standard
      ensures boolValueWithDefaultValue.key == "boolValueWithDefaultValue"
      ensures boolValueWithDefaultValue.defaultValue == true
      ensures boolValueWithDefaultValue.conv == BoolConv && boolValueWithDefaultValue.defaults == standard
      ensures intValue.key == "intValue" && intValue.defaultValue == 0
      ensures intValue.conv == IntConv && intValue.defaults == standard
      ensures intValueWithDefaultValue.key == "intValueWithDefaultValue"
      ensures intValueWithDefaultValue.defaultValue == 451
      ensures intValueWithDefaultValue.conv == IntConv && intValueWithDefaultValue.defaults == standard
      ensures doubleValue.key == "doubleValue" && doubleValue.defaultValue == 0
      ensures doubleValue.conv == DoubleConv && doubleValue.defaults == standard
      ensures floatValue.key == "floatValue" && floatValue.defaultValue == 0
      ensures floatValue.conv == FloatConv && floatValue.defaults == standard
      ensures stringValue.key == "stringValue" && stringValue.defaultValue == ""
      ensures stringValue.conv == StringConv && stringValue.defaults == standard
      ensures optionalStringValue.key == "optionalStringValue" && optionalStringValue.defaultValue == None
      ensures optionalStringValue.conv == OptionalConv(StringConv) && optionalStringValue.defaults == standard
      ensures dateValue.key == "dateValue" && dateValue.defaultValue == DistantFuture
      ensures dateValue.conv == DateConv && dateValue.defaults == standard
      ensures optionalDataValue.key == "optionalDataValue" && optionalDataValue.defaultValue == None
      ensures optionalDataValue.conv == OptionalConv(DataConv) && optionalDataValue.defaults == standard
      ensures arrayValue.key == "array" && arrayValue.defaultValue == [1, 9, 6, 1]
      ensures arrayValue.conv == ArrayConv(IntConv) && arrayValue.defaults == standard
      ensures arrayOfArray.key == "arrayOfArray" && arrayOfArray.defaultValue == []
      ensures arrayOfArray.conv == ArrayConv(ArrayConv(IntConv)) && arrayOfArray.defaults == standard
      ensures dict.key == "dict" && dict.defaultValue == map[]
      ensures dict.conv == DictConv(IntConv) && dict.defaults == standard
    {
      boolValue := new UserDefault.WithTypeDefault("boolValue", BoolDefaultable, false, standard);
      boolValueWithDefaultValue := new UserDefault("boolValueWithDefaultValue", true, BoolConv, false, standard);
      intValue := new UserDefault.WithTypeDefault("intValue", IntDefaultable, false, standard);
      intValueWithDefaultValue := new UserDefault("intValueWithDefaultValue", 451, IntConv, false, standard);
      doubleValue := new UserDefault.WithTypeDefault("doubleValue", DoubleDefaultable, false, standard);
      floatValue := new UserDefault.WithTypeDefault("floatValue", FloatDefaultable, false, standard);
      stringValue := new UserDefault("stringValue", "", StringConv, false, standard);
      optionalStringValue := new UserDefault.WithTypeDefault("optionalStringValue", OptionalDefaultable(StringConv), false, standard);
      dateValue := new UserDefault("dateValue", DistantFuture, DateConv, false, standard);
      optionalDataValue := new UserDefault.WithTypeDefault("optionalDataValue", OptionalDefaultable(DataConv), false, standard);
      arrayValue := new UserDefault("array", [1, 9, 6, 1], ArrayConv(IntConv), false, standard);
      arrayOfArray := new UserDefault.WithTypeDefault("arrayOfArray", ArrayDefaultable(ArrayConv(IntConv)), false, standard);
      dict := new UserDefault.WithTypeDefault("dict", DictDefaultable(IntConv), false, standard);
    }
  }

  class ActivityStorage {
    const activity: UserDefault<Option<Activity>>

    constructor (standard: Defaults)
      modifies standard
      ensures standard.entries == old(standard.entries)
      ensures activity.key == "activity" && activity.defaultValue == None
      ensures activity.conv == OptionalConv(ActivityConv()) && activity.defaults == standard
    {
      activity := new UserDefault.WithTypeDefault("activity", OptionalDefaultable(ActivityConv()), false, standard);
    }
  }

  /** `intValueWithDefaultValue` on an empty store reads 451; after writing 7
      the store holds the native integer 7 and the property reads 7. */
  method IntValueWithDefaultScenario() returns (initial: Result<int, ConvError>, stored: Option<Native>, after: Result<int, ConvError>)
    ensures initial == Ok(451)
    ensures stored == Some(NInt(7))
    ensures after == Ok(7)
  {
    var standard := new Defaults(map[]);
    var settings := new Settings(standard);
    initial := settings.intValueWithDefaultValue.Get();
    settings.intValueWithDefaultValue.Set(7);
    stored := standard.Object("intValueWithDefaultValue");
    after := settings.intValueWithDefaultValue.Get();
  }

  /** `array` on an empty store reads its declared default. */
  method ArrayOnEmptyStore() returns (r: Result<seq<int>, ConvError>)
    ensures r == Ok([1, 9, 6, 1])
  {
    var standard := new Defaults(map[]);
    var settings := new Settings(standard);
    r := settings.arrayValue.Get();
  }

  /** Any `[[Int]]` written under `arrayOfArray` reads back unchanged: the
      array conformance composed twice over `Int` round-trips and is always
      storable. */
  lemma ArrayOfArrayReadBack(entries: map<string, Native>, v: seq<seq<int>>)
    ensures Read(Write(entries, "arrayOfArray", ArrayConv(ArrayConv(IntConv)).toNative(v)), "arrayOfArray", ArrayConv(ArrayConv(IntConv)), []) == Ok(v)
  {
    PrimitivesConvertByIdentity();
    ArrayConvRoundTrips(IntConv);
    ArrayConvStorable(IntConv);
    ArrayConvRoundTrips(ArrayConv(IntConv));
    ArrayConvStorable(ArrayConv(IntConv));
    ReadAfterWrite(entries, "arrayOfArray", ArrayConv(ArrayConv(IntConv)), [], v);
  }

  /** The first step of the example's `test()`: `arrayOfArray` reads back
      `[[1], [2, 3]]` after that value is written. */
  method ArrayOfArrayAfterWrite() returns (r: Result<seq<seq<int>>, ConvError>)
    ensures r == Ok([[1], [2, 3]])
  {
    var standard := new Defaults(map[]);
    var settings := new Settings(standard);
    var written: seq<seq<int>> := [[1], [2, 3]];
    ArrayOfArrayReadBack(standard.entries, written);
    settings.arrayOfArray.Set(written);
    r := settings.arrayOfArray.Get();
  }

  /** An optional string written as "hi" is stored as the native string;
      writing none removes the key and the property reads none again. */
  method OptionalStringScenario() returns (afterSome: Option<Native>, afterNone: Option<Native>, r: Result<Option<string>, ConvError>)
    ensures afterSome == Some(NString("hi"))
    ensures afterNone == None
    ensures r == Ok(None)
  {
    var standard := new Defaults(map[]);
    var settings := new Settings(standard);
    settings.optionalStringValue.Set(Some("hi"));
    afterSome := standard.Object("optionalStringValue");
    settings.optionalStringValue.Set(None);
    afterNone := standard.Object("optionalStringValue");
    r := settings.optionalStringValue.Get();
  }

  /** A fresh `ActivityStorage` over an empty store reads none. */
  method ActivityOnEmptyStore() returns (r: Result<Option<Activity>, ConvError>)
    ensures r == Ok(None)
  {
    var standard := new Defaults(map[]);
    var storage := new ActivityStorage(standard);
    r := storage.activity.Get();
  }

  /** Any activity written under `activity` is stored as its tagged string
      and reads back as `some` of itself. */
  lemma ActivityReadBack(entries: map<string, Native>, a: Activity)
    ensures Write(entries, "activity", OptionalConv(ActivityConv()).toNative(Some(a)))["activity"] == NString(Encode(a))
    ensures Read(Write(entries, "activity", OptionalConv(ActivityConv()).toNative(Some(a))), "activity",
                 OptionalConv(ActivityConv()), None) == Ok(Some(a))
  {
    DecodeEncode(a);
  }

  /** The last step of the example's `test()`: an activity written through one
      `ActivityStorage` is stored as its tagged string and read back through
      another. */
  method ActivityAfterWrite() returns (stored: Option<Native>, r: Result<Option<Activity>, ConvError>)
    ensures stored == Some(NString("rHearts of Three"))
    ensures r == Ok(Some(Reading("Hearts of Three")))
  {
    var standard := new Defaults(map[]);
    var writer := new ActivityStorage(standard);
    var activity := Reading("Hearts of Three");
    ActivityReadBack(standard.entries, activity);
    assert Encode(activity) == "rHearts of Three";
    writer.activity.Set(Some(activity));
    stored := standard.Object("activity");
    var reader := new ActivityStorage(standard);
    r := reader.activity.Get();
  }
}
