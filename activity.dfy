/** The example app's `Activity` enum and its tagged-string conformance: a
    one-character tag (`r` reading, `w` watching) followed by the payload. */
module Activities {
  import opened Wrappers
  import opened NativeValues
  import opened Convertible

  datatype Activity = Watching(movie: string) | Reading(book: string)

  function Payload(a: Activity): string {
    match a
    case Watching(movie) => movie
    case Reading(book) => book
  }

  /** `userDefaultsValue`: never empty, its first character names the
      variant and the rest is the payload. */
  function Encode(a: Activity): (s: string)
    ensures |s| >= 1
    ensures s[0] == 'r' <==> a.Reading?
    ensures s[0] == 'w' <==> a.Watching?
    ensures s[1..] == Payload(a)
  {
    match a
    case Reading(book) => "r" + book
    case Watching(movie) => "w" + movie
  }

  /** `create(from:)` on a stored string: `hasPrefix("r")` is tested before
      `hasPrefix("w")`, the tag is dropped with `removeFirst()`, and any
      other string (the empty one included) is the `fatalError` case. */
  function Decode(s: string): (r: Result<Activity, ConvError>)
    ensures r.Err? <==> |s| == 0 || (s[0] != 'r' && s[0] != 'w')
    ensures r.Err? ==> r.error == UnknownTag
    ensures r.Ok? ==> Encode(r.value) == s
  {
    if "r" <= s then Ok(Reading(s[1..]))
    else if "w" <= s then Ok(Watching(s[1..]))
    else Err(UnknownTag)
  }

  /** Decoding inverts encoding, for every payload, including payloads that
      themselves begin with a tag character. */
  lemma DecodeEncode(a: Activity)
    ensures Decode(Encode(a)) == Ok(a)
  {
  }

  /** Every string that decodes is the encoding of what it decodes to. */
  lemma EncodeDecode(s: string)
    requires Decode(s).Ok?
    ensures Encode(Decode(s).value) == s
  {
  }

  /** Decoding fails exactly on strings that start with neither tag, and
      otherwise yields the variant the first character names, with the rest of
      the string as payload. */
  lemma DecodeCases(s: string)
    ensures Decode(s).Err? <==> |s| == 0 || (s[0] != 'r' && s[0] != 'w')
    ensures Decode(s).Err? ==> Decode(s).error == UnknownTag
    ensures |s| > 0 && s[0] == 'r' ==> Decode(s) == Ok(Reading(s[1..]))
    ensures |s| > 0 && s[0] == 'w' ==> Decode(s) == Ok(Watching(s[1..]))
  {
  }

  /** The `Activity` conformance: an activity is stored as its encoded
      string, and a stored value that is not a string is rejected. */
  function ActivityConv(): (c: Conv<Activity>)
    ensures forall a :: c.toNative(a) == NString(Encode(a))
    ensures forall n: Native :: !n.NString? ==> c.create(n) == Err(ShapeMismatch)
  {
    Conv(a => NString(Encode(a)), (n: Native) => if n.NString? then Decode(n.s) else Err(ShapeMismatch))
  }

  /** The activity conformance round-trips, is canonical, is always storable,
      and rejects a stored value that is not a string (`as! String`). */
  lemma ActivityConvConverts(n: Native)
    ensures RoundTrips(ActivityConv()) && Canonical(ActivityConv()) && AlwaysStorable(ActivityConv())
    ensures !n.NString? ==> ActivityConv().create(n) == Err(ShapeMismatch)
  {
  }
}
