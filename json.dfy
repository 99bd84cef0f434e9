/** JSON values as json.loads delivers them to Python, and Python's truthiness on them. */
module Json {
  import opened Outcomes

  /** A JSON value. Objects are maps (key order is not kept); numbers are integers. */
  datatype Json =
    | JNull
    | JBool(b: bool)
    | JNum(n: int)
    | JStr(s: string)
    | JArr(items: seq<Json>)
    | JObj(fields: map<string, Json>)

  /** Python's `bool(v)` for the value json.loads produced: None, False, 0, "", [] and {} are false. */
  predicate Truthy(v: Json) {
    match v
    case JNull => false
    case JBool(b) => b
    case JNum(n) => n != 0
    case JStr(s) => s != ""
    case JArr(items) => items != []
    case JObj(fields) => fields != map[]
  }

  /** Python's `d.get(key, default)` on a dict. */
  function GetOr(fields: map<string, Json>, key: string, default: Json): (v: Json)
    ensures key in fields ==> v == fields[key]
    ensures key !in fields ==> v == default
  {
    if key in fields then fields[key] else default
  }

  /** Python's `data.get(key)` on a parsed request body: None for a missing key;
      a body that is not an object has no `.get`, so the call raises. */
  function Get(data: Json, key: string): (r: Try<Json>)
    ensures r.Raised? <==> !data.JObj?
    ensures r.Returned? ==> r.value == GetOr(data.fields, key, JNull)
  {
    if data.JObj? then Returned(GetOr(data.fields, key, JNull)) else Raised(AttributeError)
  }

  /** The JSON value of a list of Python strings. */
  function Strs(xs: seq<string>): (r: Json)
    ensures r.JArr? && |r.items| == |xs|
    ensures forall i :: 0 <= i < |xs| ==> r.items[i] == JStr(xs[i])
  {
    JArr(seq(|xs|, i requires 0 <= i < |xs| => JStr(xs[i])))
  }

  /** An object with a single key. */
  function Single(key: string, v: Json): (r: Json)
    ensures r.JObj? && r.fields.Keys == {key} && r.fields[key] == v
  {
    JObj(map[key := v])
  }
}
