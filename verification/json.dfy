/** Decoded JSON values as the Python client sees them after `json.loads`,
    together with the two Python behaviours the client relies on: truthiness
    (`if x`, `not x`, `a or b`) and ordering against an integer (`x >= 5000`).
    JSON numbers are modelled as integers only. */
module Json {
  import opened Wrappers

  /** `JNull` stands for Python `None`: a JSON null, and also what `dict.get`
      yields for a missing key. */
  datatype Json =
    | JNull
    | JBool(b: bool)
    | JInt(i: int)
    | JStr(s: string)
    | JArr(items: seq<Json>)
    | JObj(fields: map<string, Json>)

  /** A decoded JSON object: a Python `dict` with string keys. */
  type Object = map<string, Json>

  /** Python truthiness: None, False, 0 and empty containers are falsy. */
  predicate Truthy(v: Json)
    ensures !Truthy(v) <==> v in [JNull, JBool(false), JInt(0), JStr(""), JArr([]), JObj(map[])]
  {
    match v
    case JNull => false
    case JBool(b) => b
    case JInt(i) => i != 0
    case JStr(s) => s != []
    case JArr(a) => a != []
    case JObj(m) => m != map[]
  }

  /** `d.get(key)`: the value under `key`, or None when the key is missing. */
  function Get(d: Object, key: string): (v: Json)
    ensures key in d ==> v == d[key]
    ensures key !in d ==> v == JNull
  {
    if key in d then d[key] else JNull
  }

  /** Python `a or b`: `a` when it is truthy, otherwise `b`. */
  function Or(a: Json, b: Json): (r: Json)
    ensures r == a || r == b
    ensures Truthy(a) ==> r == a
    ensures !Truthy(a) ==> r == b
    ensures Truthy(r) <==> Truthy(a) || Truthy(b)
  {
    if Truthy(a) then a else b
  }

  /** The integer Python uses when `v` is compared with an int; `bool` is an
      `int` subclass. None means the comparison raises `TypeError`. */
  function AsNumber(v: Json): (n: Option<int>)
    ensures n.Some? <==> v.JInt? || v.JBool?
    ensures v.JInt? ==> n == Some(v.i)
    ensures v.JBool? ==> n == Some(if v.b then 1 else 0)
  {
    match v
    case JInt(i) => Some(i)
    case JBool(b) => Some(if b then 1 else 0)
    case _ => None
  }
}
