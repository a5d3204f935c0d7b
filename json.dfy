/**
  JSON values as Python's `json` module produces them, and the library itself
  as a pair of functions supplied by the caller: the model never fixes a
  grammar, it only states what it needs of one (`RoundTrips`).
*/
module Json {
  import opened Wrappers

  /** A decoded JSON document; numbers are integers only. */
  datatype Json =
    | Null
    | Bool(b: bool)
    | Number(n: int)
    | Str(s: string)
    | Array(items: seq<Json>)
    | Object(fields: map<string, Json>)

  /** `json.dumps` and `json.loads`; `loads` gives `None` where Python raises. */
  datatype Codec = Codec(dumps: Json -> string, loads: string -> Option<Json>)

  /** What every conforming library guarantees: parsing a serialised value gives it back. */
  ghost predicate RoundTrips(codec: Codec) {
    forall j :: codec.loads(codec.dumps(j)) == Some(j)
  }

  /** Python's truth value of a decoded JSON value (`if value:`). */
  predicate Truthy(j: Json) {
    match j
    case Null => false
    case Bool(b) => b
    case Number(n) => n != 0
    case Str(s) => s != ""
    case Array(items) => items != []
    case Object(fields) => fields != map[]
  }

  /** The Python type name of a decoded value, as it appears in a TypeError. */
  function TypeName(j: Json): string {
    match j
    case Null => "NoneType"
    case Bool(_) => "bool"
    case Number(_) => "int"
    case Str(_) => "str"
    case Array(_) => "list"
    case Object(_) => "dict"
  }

  /** `value[key]` on a decoded value: only an object holding `key` answers. */
  function Field(j: Json, key: string): (r: Option<Json>)
    ensures r.Some? <==> j.Object? && key in j.fields
    ensures r.Some? ==> r.value == j.fields[key]
  {
    if j.Object? && key in j.fields then Some(j.fields[key]) else None
  }

  /** `json.loads(value)`: Python accepts only a string here (TypeError otherwise). */
  function LoadsValue(codec: Codec, j: Json): (r: Option<Json>)
    ensures j.Str? ==> r == codec.loads(j.s)
    ensures !j.Str? ==> r == None
  {
    if j.Str? then codec.loads(j.s) else None
  }
}
