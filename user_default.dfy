/** The `@UserDefault` property wrapper: a key, a default and a store, with a
    read that falls back to the default and a write that deletes on none. */
module Accessor {
  import opened Wrappers
  import opened NativeValues
  import opened Convertible
  import opened Store

  /** What a read of `key` returns for the store's entries: the default when
      the key is absent, otherwise the conversion of the stored value. */
  function Read<T>(entries: map<string, Native>, key: string, conv: Conv<T>, defaultValue: T): (r: Result<T, ConvError>)
    ensures key !in entries ==> r == Ok(defaultValue)
    ensures r.Err? ==> key in entries && conv.create(entries[key]).Err?
  {
    if key in entries then conv.create(entries[key]) else Ok(defaultValue)
  }

  /** The store's entries after writing the converted value `n` under `key`:
      the key is removed when `n` is the null marker and set to `n`
      otherwise; every other key keeps its entry. */
  function Write(entries: map<string, Native>, key: string, n: Native): (r: map<string, Native>)
    ensures key in r <==> !IsNone(n)
    ensures key in r ==> r[key] == n
    ensures forall k :: k != key ==> (k in r <==> k in entries)
    ensures forall k :: k != key && k in r ==> r[k] == entries[k]
  {
    if IsNone(n) then entries - {key} else entries[key := n]
  }

  /** The store's entries after constructing an accessor: the default is
      written only when asked for and only when the key is absent. */
  function SetUp<T>(entries: map<string, Native>, key: string, conv: Conv<T>, defaultValue: T, setupDefault: bool): (r: map<string, Native>)
    ensures !setupDefault || key in entries ==> r == entries
    ensures setupDefault && key !in entries && !IsNone(conv.toNative(defaultValue)) ==>
      key in r && r[key] == conv.toNative(defaultValue)
    ensures setupDefault && key !in entries && IsNone(conv.toNative(defaultValue)) ==> key !in r
  {
    if setupDefault && key !in entries then Write(entries, key, conv.toNative(defaultValue)) else entries
  }

  class UserDefault<T> {
    const key: string
    const defaultValue: T
    const conv: Conv<T>
    const defaults: Defaults

    /** `init(_:defaultValue:setupDefault:defaults:)`. */
    constructor (key: string, defaultValue: T, conv: Conv<T>, setupDefault: bool, defaults: Defaults)
      modifies defaults
      ensures this.key == key && this.defaultValue == defaultValue && this.conv == conv
      ensures this.defaults == defaults
      ensures defaults.entries == SetUp(old(defaults.entries), key, conv, defaultValue, setupDefault)
    {
      this.key := key;
      this.defaultValue := defaultValue;
      this.conv := conv;
      this.defaults := defaults;
      new;
      SetUpDefault(setupDefault);
    }

    /** `init(_:setupDefault:defaults:)`, for a type with a zero default. */
    constructor WithTypeDefault(key: string, d: Defaultable<T>, setupDefault: bool, defaults: Defaults)
      modifies defaults
      ensures this.key == key && this.defaultValue == d.defaultValue && this.conv == d.conv
      ensures this.defaults == defaults
      ensures defaults.entries == SetUp(old(defaults.entries), key, d.conv, d.defaultValue, setupDefault)
    {
      this.key := key;
      this.defaultValue := d.defaultValue;
      this.conv := d.conv;
      this.defaults := defaults;
      new;
      SetUpDefault(setupDefault);
    }

    /** Writes the default through when asked to and the key is absent. */
    method SetUpDefault(setupDefault: bool)
      modifies defaults
      ensures defaults.entries == SetUp(old(defaults.entries), key, conv, defaultValue, setupDefault)
    {
      if setupDefault {
        var existing := defaults.Object(key);
        if existing.None? {
          Set(defaultValue);
        }
      }
    }

    /** The `wrappedValue` getter; it changes nothing. */
    method Get() returns (value: Result<T, ConvError>)
      ensures value == Read(defaults.entries, key, conv, defaultValue)
    {
      var stored := defaults.Object(key);
      match stored
      case None => value := Ok(defaultValue);
      case Some(n) => value := conv.create(n);
    }

    /** The `wrappedValue` setter. */
    method Set(newValue: T)
      modifies defaults
      ensures defaults.entries == Write(old(defaults.entries), key, conv.toNative(newValue))
    {
      var value := conv.toNative(newValue);
      if IsNone(value) {
        defaults.Set(None, key);
      } else {
        defaults.Set(Some(value), key);
      }
    }
  }

  /** Writing a storable value and reading it back returns that value. */
  lemma ReadAfterWrite<T(!new)>(entries: map<string, Native>, key: string, conv: Conv<T>, defaultValue: T, v: T)
    requires RoundTrips(conv)
    requires IsPropertyList(conv.toNative(v))
    ensures Read(Write(entries, key, conv.toNative(v)), key, conv, defaultValue) == Ok(v)
  {
  }

  /** Writing a value that converts to the null marker deletes the key, and a
      later read returns the default rather than a stored null. */
  lemma ReadAfterNoneWrite<T>(entries: map<string, Native>, key: string, conv: Conv<T>, defaultValue: T, v: T)
    requires IsNone(conv.toNative(v))
    ensures key !in Write(entries, key, conv.toNative(v))
    ensures Read(Write(entries, key, conv.toNative(v)), key, conv, defaultValue) == Ok(defaultValue)
  {
  }

  /** A write to one key does not change what any other key reads. */
  lemma ReadOtherKeyAfterWrite<T>(entries: map<string, Native>, key: string, other: string, conv: Conv<T>, defaultValue: T, n: Native)
    requires other != key
    ensures Read(Write(entries, key, n), other, conv, defaultValue) == Read(entries, other, conv, defaultValue)
  {
  }

  /** Of two writes to the same key, the second wins. */
  lemma LastWriteWins(entries: map<string, Native>, key: string, n1: Native, n2: Native)
    ensures Write(Write(entries, key, n1), key, n2) == Write(entries, key, n2)
  {
  }

  /** A read right after construction returns the default whenever the key
      was absent: trivially when no default is set up, and, when one is, for a
      round-tripping conformance whose default is storable or converts to none. */
  lemma ReadAfterSetUp<T(!new)>(entries: map<string, Native>, key: string, conv: Conv<T>, defaultValue: T, setupDefault: bool)
    ensures !setupDefault || key in entries ==> SetUp(entries, key, conv, defaultValue, setupDefault) == entries
    ensures key !in entries && !setupDefault ==>
      Read(SetUp(entries, key, conv, defaultValue, setupDefault), key, conv, defaultValue) == Ok(defaultValue)
    ensures (key !in entries && setupDefault && RoundTrips(conv) &&
             (IsNone(conv.toNative(defaultValue)) || IsPropertyList(conv.toNative(defaultValue)))) ==>
      Read(SetUp(entries, key, conv, defaultValue, setupDefault), key, conv, defaultValue) == Ok(defaultValue)
  {
  }
}
