/** JSON values as the two halves of the dashboard exchange them, and the few
    JavaScript operations the frontend applies to them: truthiness, property
    reads and conversion to a string. Numbers are integers here (see README). */
module Json {
  import opened Text

  datatype Option<+T> = None | Some(value: T)

  datatype Json =
    | JNull
    | JBool(b: bool)
    | JNum(n: int)
    | JStr(s: string)
    | JArr(items: seq<Json>)
    | JObj(fields: map<string, Json>)

  /** JavaScript truthiness of a value that may be `undefined` (None). Objects and
      arrays are truthy even when empty. */
  predicate Truthy(v: Option<Json>)
  {
    match v
    case None => false
    case Some(JNull) => false
    case Some(JBool(b)) => b
    case Some(JNum(n)) => n != 0
    case Some(JStr(s)) => s != ""
    case Some(JArr(_)) => true
    case Some(JObj(_)) => true
  }

  /** `undefined` or `null`: the two values whose property reads throw. */
  predicate Nullish(v: Option<Json>)
  {
    v == None || v == Some(JNull)
  }

  /** The property read `v.key` on a value that is not nullish: the member of an
      object, `undefined` for a missing member or a primitive. */
  function Get(v: Option<Json>, key: string): (r: Option<Json>)
    ensures r.Some? <==> v.Some? && v.value.JObj? && key in v.value.fields
    ensures r.Some? ==> r.value == v.value.fields[key]
  {
    match v
    case Some(JObj(m)) => if key in m then Some(m[key]) else None
    case _ => None
  }

  /** JavaScript's String(v) for a JSON value: arrays are joined with "," and
      their null elements become empty; objects print as "[object Object]". */
  function ToJsString(v: Json): (r: string)
    ensures v.JStr? ==> r == v.s
  {
    match v
    case JNull => "null"
    case JBool(b) => if b then "true" else "false"
    case JNum(n) => IntToString(n)
    case JStr(s) => s
    case JArr(items) => ArrayToString(items)
    case JObj(_) => "[object Object]"
  }

  function ArrayToString(items: seq<Json>): string
    decreases items, 0
  {
    if items == [] then ""
    else
      var head := if items[0] == JNull then "" else ToJsString(items[0]);
      if |items| == 1 then head else head + "," + ArrayToString(items[1..])
  }

  /** A template-literal interpolation `${v}`: undefined prints as "undefined". */
  function Interpolate(v: Option<Json>): (r: string)
    ensures v.None? ==> r == "undefined"
    ensures v.Some? ==> r == ToJsString(v.value)
  {
    if v.None? then "undefined" else ToJsString(v.value)
  }

  /** What an element shows after `textContent = v`: the DOM turns undefined and
      null into the empty string, anything else into String(v). */
  function TextContentOf(v: Option<Json>): (r: string)
    ensures Nullish(v) ==> r == ""
    ensures v.Some? && v.value.JStr? ==> r == v.value.s
  {
    if Nullish(v) then "" else ToJsString(v.value)
  }
}
