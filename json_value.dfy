/**
 * Decoded JSON bodies of the hotel API and the part of Python's behaviour on them that
 * the parsers depend on: `d[key]` raises unless `d` is an object holding `key`, `x[:n]`
 * works on lists and strings only, and `for item in x` walks a list's items, a
 * string's characters or an object's keys and raises on anything else.
 * `None` below stands for the `KeyError` or `TypeError` Python raises.
 */
module JsonValue {
  import opened Common

  /** An object keeps its members in document order, as Python's `json` module does. */
  datatype Json =
    | JNull
    | JBool(b: bool)
    | JNum(n: int)
    | JStr(s: string)
    | JArr(items: seq<Json>)
    | JObj(members: seq<(string, Json)>)

  /** The value of `key` among an object's members; a repeated key keeps its last value. */
  function Lookup(members: seq<(string, Json)>, key: string): (r: Option<Json>)
    ensures r.Some? <==> exists i :: 0 <= i < |members| && members[i].0 == key
    ensures r.Some? ==> exists i :: 0 <= i < |members| && members[i] == (key, r.value)
    decreases |members|
  {
    if |members| == 0 then None
    else if members[|members| - 1].0 == key then Some(members[|members| - 1].1)
    else Lookup(members[..|members| - 1], key)
  }

  /** `j[key]`. */
  function Get(j: Json, key: string): (r: Option<Json>)
    ensures r.Some? ==> j.JObj?
  {
    match j
    case JObj(members) => Lookup(members, key)
    case _ => None
  }

  /** `j[k0][k1]...`: the chain of subscripts, failing at the first that raises. */
  function At(j: Json, path: seq<string>): Option<Json>
    decreases |path|
  {
    if |path| == 0 then Some(j)
    else match Get(j, path[0])
      case None => None
      case Some(child) => At(child, path[1..])
  }

  /** What `for item in j` walks over. */
  function Elements(j: Json): Option<seq<Json>>
  {
    match j
    case JArr(items) => Some(items)
    case JStr(s) => Some(seq(|s|, i requires 0 <= i < |s| => JStr([s[i]])))
    case JObj(members) => Some(seq(|members|, i requires 0 <= i < |members| => JStr(members[i].0)))
    case _ => None
  }

  /** `j[:n]`: lists and strings are cut, everything else raises. */
  function SliceTo(j: Json, n: nat): (r: Option<Json>)
    ensures r.Some? <==> j.JArr? || j.JStr?
  {
    match j
    case JArr(items) => Some(JArr(Take(items, n)))
    case JStr(s) => Some(JStr(Take(s, n)))
    case _ => None
  }

  function AsString(j: Json): Option<string> {
    if j.JStr? then Some(j.s) else None
  }

  function AsNumber(j: Json): Option<int> {
    if j.JNum? then Some(j.n) else None
  }

  /** A string read at the end of a chain of subscripts. */
  function StringAt(j: Json, path: seq<string>): Option<string> {
    match At(j, path)
    case None => None
    case Some(v) => AsString(v)
  }

  /** A number read at the end of a chain of subscripts. */
  function NumberAt(j: Json, path: seq<string>): Option<int> {
    match At(j, path)
    case None => None
    case Some(v) => AsNumber(v)
  }
}
