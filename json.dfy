/** The JSON-like values that tool and agent parameters arrive as
    (`Record<string, unknown>`) and that `JSON.parse` produces, with the few
    JavaScript conversions the client applies to them. Numbers are integers
    here. */
module Json {
  import opened Common

  datatype Json =
    | JNull
    | JBool(b: bool)
    | JNum(n: int)
    | JStr(s: string)
    | JArr(elems: seq<Json>)
    | JObj(fields: map<string, Json>)

  /** JavaScript truthiness: `null`, `false`, `0` and `""` are falsy. */
  predicate Truthy(j: Json)
  {
    match j
    case JNull => false
    case JBool(b) => b
    case JNum(n) => n != 0
    case JStr(s) => s != ""
    case _ => true
  }

  /** `value.key` on a parsed value that is not `null`: an object's own
      field, and `undefined` (None) for anything else. */
  function Field(j: Json, key: string): (r: Option<Json>)
    ensures r.Some? <==> j.JObj? && key in j.fields
    ensures r.Some? ==> r.value == j.fields[key]
  {
    match j
    case JObj(f) => if key in f then Some(f[key]) else None
    case _ => None
  }

  /** `String(n)` for an integer. */
  function IntToString(n: int): (r: string)
    ensures r != []
    ensures n >= 0 ==> r == NatToString(n)
  {
    if n >= 0 then NatToString(n) else "-" + NatToString(-n)
  }

  /** `String(value)`; `undefined` (None) reads "undefined". */
  function ToJsString(v: Option<Json>): string
  {
    match v
    case None => "undefined"
    case Some(j) => JsonToString(j)
  }

  /** `String(j)`: an array is its elements joined by ",", where `null`
      elements give the empty string; an object reads "[object Object]". */
  function JsonToString(j: Json): (r: string)
    ensures j.JStr? ==> r == j.s
  {
    match j
    case JNull => "null"
    case JBool(b) => if b then "true" else "false"
    case JNum(n) => IntToString(n)
    case JStr(s) => s
    case JArr(elems) => JoinElements(elems)
    case JObj(_) => "[object Object]"
  }

  /** `Array.prototype.join(",")` as `String` applies it to an array. */
  function JoinElements(elems: seq<Json>): string
    decreases elems
  {
    if elems == [] then ""
    else
      var first := if elems[0].JNull? then "" else JsonToString(elems[0]);
      if |elems| == 1 then first else first + "," + JoinElements(elems[1..])
  }
}
