/** The part of a parsed JSON document that the request handlers consult,
    with the indexing rules of serde_json's `Value`. */
module Json {
  import opened Wrappers

  /** A parsed JSON value. Numbers keep their literal text: no handler reads
      one. Object members live in a map, so a key occurs at most once. */
  datatype Value =
    | Null
    | Bool(b: bool)
    | Number(literal: string)
    | String(s: string)
    | Array(items: seq<Value>)
    | Object(members: map<string, Value>)

  /** `v[key]`: indexing never fails; a missing key, or a value that is not
      an object, yields `Null`. */
  function Member(v: Value, key: string): (r: Value)
    ensures v.Object? && key in v.members ==> r == v.members[key]
    ensures !(v.Object? && key in v.members) ==> r == Null
  {
    if v.Object? && key in v.members then v.members[key] else Null
  }

  /** `v[i]`: an index past the end, or a value that is not an array,
      yields `Null`. */
  function Element(v: Value, i: nat): (r: Value)
    ensures v.Array? && i < |v.items| ==> r == v.items[i]
    ensures !(v.Array? && i < |v.items|) ==> r == Null
  {
    if v.Array? && i < |v.items| then v.items[i] else Null
  }

  /** `v.as_str()`: the text of a string, and nothing for any other kind. */
  function AsStr(v: Value): (r: Option<string>)
    ensures r.Some? <==> v.String?
    ensures r.Some? ==> r.value == v.s
  {
    match v
    case String(s) => Some(s)
    case _ => None
  }
}
