/**
 * JSON values as Python's `json` module produces and consumes them. Integers
 * and floats are both numbers; object key order is not observable by the
 * code modelled here.
 */
module Json {
  datatype Json =
    | JNull
    | JBool(b: bool)
    | JNum(n: real)
    | JStr(s: string)
    | JArr(items: seq<Json>)
    | JObj(fields: map<string, Json>)

  /** A list of strings as a JSON array. */
  function StrArray(ss: seq<string>): (r: Json)
    ensures r.JArr? && |r.items| == |ss|
    ensures forall i :: 0 <= i < |ss| ==> r.items[i] == JStr(ss[i])
  {
    JArr(seq(|ss|, i requires 0 <= i < |ss| => JStr(ss[i])))
  }

  /** `d.get(key, default)` on a JSON object. */
  function GetKey(d: map<string, Json>, key: string, default: Json): (r: Json)
    ensures key in d ==> r == d[key]
    ensures key !in d ==> r == default
  {
    if key in d then d[key] else default
  }

  /** Python truthiness of a JSON value. */
  predicate Truthy(j: Json)
  {
    match j
    case JNull => false
    case JBool(b) => b
    case JNum(n) => n != 0.0
    case JStr(s) => s != ""
    case JArr(items) => items != []
    case JObj(fields) => fields != map[]
  }

  /** `isinstance(v, (int, float))`; a Python `bool` is an `int`. */
  predicate Numeric(v: Json)
  {
    v.JNum? || v.JBool?
  }

  function NumValue(v: Json): real
    requires Numeric(v)
  {
    if v.JNum? then v.n else if v.b then 1.0 else 0.0
  }
}
