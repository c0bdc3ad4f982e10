/** An in-memory stand-in for a Foundation `UserDefaults` instance: a flat map
    from string keys to native values, with get, set and delete-by-key. */
module Store {
  import opened Wrappers
  import opened NativeValues

  class Defaults {
    var entries: map<string, Native>

    constructor (entries: map<string, Native>)
      ensures this.entries == entries
    {
      this.entries := entries;
    }

    /** `object(forKey:)`: the stored value, or none when the key is absent. */
    method Object(key: string) returns (value: Option<Native>)
      ensures value.Some? <==> key in entries
      ensures value.Some? ==> value.value == entries[key]
    {
      value := if key in entries then Some(entries[key]) else None;
    }

    /** `set(_:forKey:)`: stores a value, or removes the key when given nil. */
    method Set(value: Option<Native>, key: string)
      modifies this
      ensures entries == if value.None? then old(entries) - {key} else old(entries)[key := value.value]
    {
      entries := if value.None? then entries - {key} else entries[key := value.value];
    }
  }
}
