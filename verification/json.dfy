/** The optional value used for every `x or None` of the source. */
module Wrappers {

  datatype Option<+T> = None | Some(value: T) {

    /** The value in `Some`, or `default` for `None`, as `dict.get(key, default)` does. */
    function GetOr(default: T): T {
      match this
      case Some(v) => v
      case None => default
    }
  }
}

/**
 * JSON values as Python's `json` module hands them to the applications:
 * objects become dictionaries, and the token file, the token endpoint's
 * reply and the Cognito trigger event are all such dictionaries.
 */
module Json {
  import opened Wrappers

  datatype Json =
    | JNull
    | JBool(b: bool)
    | JInt(i: int)
    | JStr(s: string)
    | JArray(items: seq<Json>)
    | JObject(fields: map<string, Json>)

  /** A JSON object as a Python `dict`. */
  type Dict = map<string, Json>

  /**
   * Python's truth value of a decoded JSON value (`if x:` / `not x`): false
   * exactly for `None`, `False`, zero and the empty string, list and dict.
   */
  function Truthy(v: Json): (r: bool)
    ensures !r <==> v in {JNull, JBool(false), JInt(0), JStr(""), JArray([]), JObject(map[])}
  {
    match v
    case JNull => false
    case JBool(b) => b
    case JInt(i) => i != 0
    case JStr(s) => s != ""
    case JArray(items) => items != []
    case JObject(fields) => fields != map[]
  }

  /**
   * The integer Python uses when the value meets `-`: `bool` is a subclass of
   * `int`; every other JSON value makes the subtraction raise `TypeError`.
   */
  function Numeric(v: Json): (r: Option<int>)
    ensures r.Some? <==> v.JInt? || v.JBool?
    ensures v.JInt? ==> r == Some(v.i)
  {
    match v
    case JInt(i) => Some(i)
    case JBool(b) => Some(if b then 1 else 0)
    case _ => None
  }

  /** `d.get(key)`. */
  function Get(d: Dict, key: string): (r: Option<Json>)
    ensures r.Some? <==> key in d
    ensures key in d ==> r.value == d[key]
  {
    if key in d then Some(d[key]) else None
  }

  /**
   * Follows a path of keys through nested objects: `j[p0][p1]...`, or `None`
   * as soon as a step is not an object holding the next key.
   */
  function Lookup(j: Json, path: seq<string>): (r: Option<Json>)
    decreases |path|
  {
    if path == [] then Some(j)
    else
      match j
      case JObject(fields) =>
        if path[0] in fields then Lookup(fields[path[0]], path[1..]) else None
      case _ => None
  }

  lemma {:induction false} LookupAppend(j: Json, p: seq<string>, q: seq<string>)
    requires Lookup(j, p).Some?
    ensures Lookup(j, p + q) == Lookup(Lookup(j, p).value, q)
    decreases |p|
  {
    if p != [] {
      assert (p + q)[0] == p[0] && (p + q)[1..] == p[1..] + q;
      LookupAppend(j.fields[p[0]], p[1..], q);
    } else {
      assert p + q == q;
    }
  }
}
