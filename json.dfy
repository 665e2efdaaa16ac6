/**
 * JSON values (RFC 8259) as an abstract tree, and the decoding rules that Swift's synthesised
 * `Decodable` conformances apply to them: a required property must be present, non-null and of
 * the right type; an optional property decodes to `None` when its key is missing or its value is
 * `null`, and fails when it is present with the wrong type; unknown keys are ignored.
 */
module Json {
  import opened Wrappers

  /** Numbers are modelled as integers only: every numeric property of the core is an `Int`. */
  datatype Value =
    | Null
    | Bool(b: bool)
    | Number(n: int)
    | Str(s: string)
    | Array(items: seq<Value>)
    | Object(fields: map<string, Value>)

  function AsString(v: Value): (r: Option<string>)
    ensures r.Some? <==> v.Str?
    ensures r.Some? ==> r.value == v.s
  {
    if v.Str? then Some(v.s) else None
  }

  /** Swift's `Int` is 64 bits wide: a number outside its range does not decode. */
  predicate InInt64Range(n: int) { -0x8000_0000_0000_0000 <= n < 0x8000_0000_0000_0000 }

  function AsInt(v: Value): (r: Option<int>)
    ensures r.Some? <==> v.Number? && InInt64Range(v.n)
    ensures r.Some? ==> r.value == v.n
  {
    if v.Number? && InInt64Range(v.n) then Some(v.n) else None
  }

  function AsBool(v: Value): (r: Option<bool>)
    ensures r.Some? <==> v.Bool?
    ensures r.Some? ==> r.value == v.b
  {
    if v.Bool? then Some(v.b) else None
  }

  /** Decodes every element with `decode`; one failing element fails the whole array. */
  function DecodeElements<A>(items: seq<Value>, decode: Value -> Option<A>): (r: Option<seq<A>>)
    ensures r.Some? <==> forall i :: 0 <= i < |items| ==> decode(items[i]).Some?
    ensures r.Some? ==> |r.value| == |items|
    ensures r.Some? ==> forall i :: 0 <= i < |items| ==> decode(items[i]) == Some(r.value[i])
    decreases |items|
  {
    if items == [] then Some([])
    else
      match decode(items[0])
      case None => None
      case Some(head) =>
        match DecodeElements(items[1..], decode)
        case None =>
          assert forall i :: 1 <= i < |items| ==> items[i] == items[1..][i - 1];
          None
        case Some(tail) =>
          assert forall i :: 1 <= i < |items| ==> items[i] == items[1..][i - 1];
          Some([head] + tail)
  }

  /** `[A]`: a JSON array whose elements all decode. */
  function AsArrayOf<A>(v: Value, decode: Value -> Option<A>): (r: Option<seq<A>>)
    ensures r.Some? <==> v.Array? && forall i :: 0 <= i < |v.items| ==> decode(v.items[i]).Some?
    ensures r.Some? ==> v.Array? && |r.value| == |v.items|
    ensures r.Some? ==> forall i :: 0 <= i < |v.items| ==> decode(v.items[i]) == Some(r.value[i])
  {
    if v.Array? then DecodeElements(v.items, decode) else None
  }

  /** `decode(_:forKey:)`: the key must be present and its value must decode. */
  function Required<A>(fields: map<string, Value>, key: string, decode: Value -> Option<A>): (r: Option<A>)
    ensures r.Some? ==> key in fields && decode(fields[key]) == r
    ensures key in fields ==> r == decode(fields[key])
  {
    if key in fields then decode(fields[key]) else None
  }

  /**
   * `decodeIfPresent(_:forKey:)`: a missing key or a `null` value gives `Some(None)`; a present
   * value gives `Some(Some(a))` when it decodes and `None` (a thrown error) otherwise.
   */
  function Optional<A>(fields: map<string, Value>, key: string, decode: Value -> Option<A>): (r: Option<Option<A>>)
    ensures (key !in fields || fields[key] == Null) ==> r == Some(None)
    ensures key in fields && fields[key] != Null ==>
              (r.Some? <==> decode(fields[key]).Some?) &&
              (r.Some? ==> r.value == decode(fields[key]))
  {
    if key !in fields || fields[key] == Null then Some(None)
    else
      match decode(fields[key])
      case None => None
      case Some(a) => Some(Some(a))
  }

  /** `encodeIfPresent(_:forKey:)`: an absent optional contributes no key at all. */
  function EncodeIfPresent(key: string, v: Option<string>): (r: map<string, Value>)
    ensures v.None? ==> r == map[]
    ensures v.Some? ==> r == map[key := Str(v.value)]
  {
    if v.Some? then map[key := Str(v.value)] else map[]
  }

  /** Removing a key other than `key` does not change how `key` decodes. */
  lemma OptionalIgnoresOtherKeys<A>(fields: map<string, Value>, other: string, key: string, decode: Value -> Option<A>)
    requires other != key
    ensures Optional(fields - {other}, key, decode) == Optional(fields, key, decode)
  {
    assert (key in fields - {other}) == (key in fields);
    if key in fields { assert (fields - {other})[key] == fields[key]; }
  }

  /** An optional property survives the removal of its own key: it then decodes as absent. */
  lemma OptionalStillDecodesWithout<A>(fields: map<string, Value>, removed: string, key: string, decode: Value -> Option<A>)
    requires Optional(fields, key, decode).Some?
    ensures Optional(fields - {removed}, key, decode).Some?
    ensures removed == key ==> Optional(fields - {removed}, key, decode) == Some(None)
    ensures removed != key ==> Optional(fields - {removed}, key, decode) == Optional(fields, key, decode)
  {
    if removed != key {
      OptionalIgnoresOtherKeys(fields, removed, key, decode);
    }
  }
}
