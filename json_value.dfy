/**
 * Decoded JSON values, as Python's json module hands them to the dashboard,
 * and the library calls the dashboard makes on them. The library calls are
 * taken as given (parameters), not implemented.
 */
module JsonValue {
  import opened Wrappers

  /** A JSON value. An object keeps its members in insertion order, as a Python dict does. */
  datatype Json =
    | Null
    | Bool(b: bool)
    | Number(n: int)
    | Str(s: string)
    | Array(items: seq<Json>)
    | Object(members: seq<(string, Json)>)

  /** Looking a key up in a dict: the value of the first member with that name. */
  function Lookup(members: seq<(string, Json)>, key: string): (r: Option<Json>)
    ensures r.None? <==> forall i :: 0 <= i < |members| ==> members[i].0 != key
    ensures r.Some? ==> exists i :: 0 <= i < |members| && members[i] == (key, r.value)
  {
    if |members| == 0 then None
    else if members[0].0 == key then Some(members[0].1)
    else Lookup(members[1..], key)
  }

  /** Python's truth value of a decoded value: false exactly for None, False, 0, "", [] and {}. */
  predicate Truthy(v: Json)
    ensures !Truthy(v) <==> v in [Null, Bool(false), Number(0), Str(""), Array([]), Object([])]
  {
    match v
    case Null => false
    case Bool(b) => b
    case Number(n) => n != 0
    case Str(s) => s != ""
    case Array(items) => items != []
    case Object(members) => members != []
  }

  /** How `json.loads` can fail: a malformed document, or any other exception it raises. */
  datatype LoadError = DecodeError(message: string) | OtherError(message: string)

  /** The standard-library calls the dashboard makes, taken as uninterpreted functions. */
  datatype Library = Library(
    loads: string -> Result<Json, LoadError>,  // json.loads
    dumps: Json -> string,                     // json.dumps(value, indent=2)
    format: Json -> string)                    // str(value) for a value that is not a string

  /** A value formatted into a string: a string as it is, anything else through str(). */
  function Text(v: Json, lib: Library): (r: string)
    ensures forall s :: v == Str(s) ==> r == s
    ensures !v.Str? ==> r == lib.format(v)
  {
    if v.Str? then v.s else lib.format(v)
  }
}
