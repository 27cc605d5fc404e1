/** The values a device status document is made of, and the two pieces of
    Python semantics the integration leans on when it reads them:
    `dict.get` with a default, and truthiness (`bool(x)`). */
module Json {

  datatype Option<T> = None | Some(value: T)

  /** The Python exceptions the modelled code can raise on a malformed document. */
  datatype PyError =
    | AttributeError     // `.get` called on something that is not a dict
    | UnboundLocalError  // a local read on a path that never assigned it

  /** The outcome of evaluating a Python expression: a value, or an exception. */
  datatype Outcome<T> = Ok(value: T) | Raises(error: PyError)

  /** A parsed JSON document. Python's `None` is `JNull`. Numbers are integers
      only; floats are not modelled. */
  datatype Json =
    | JNull
    | JBool(b: bool)
    | JInt(i: int)
    | JStr(s: string)
    | JArr(items: seq<Json>)
    | JObj(fields: map<string, Json>)

  /** The literal `{}`. */
  const EmptyObject: Json := JObj(map[])

  /** Python's `bool(x)` on a JSON value: exactly `None`, `False`, `0`, `""`,
      `[]` and `{}` are falsy. */
  function Truthy(j: Json): (b: bool)
    ensures !b <==> j in {JNull, JBool(false), JInt(0), JStr(""), JArr([]), EmptyObject}
  {
    match j
    case JNull => false
    case JBool(v) => v
    case JInt(n) => n != 0
    case JStr(s) => |s| > 0
    case JArr(xs) => |xs| > 0
    case JObj(m) => |m| > 0
  }

  /** `j.get(key, default)`: raises unless `j` is a dict. */
  function Get(j: Json, key: string, default: Json): (r: Outcome<Json>)
    ensures r.Ok? <==> j.JObj?
    ensures r.Raises? ==> r.error == AttributeError
    ensures j.JObj? && key in j.fields ==> r.value == j.fields[key]
    ensures j.JObj? && key !in j.fields ==> r.value == default
  {
    match j
    case JObj(m) => Ok(if key in m then m[key] else default)
    case _ => Raises(AttributeError)
  }

  /** `j.get(outer, {}).get(key, default)`: a missing outer object reads as `{}`. */
  function GetIn(j: Json, outer: string, key: string, default: Json): (r: Outcome<Json>)
    ensures r.Ok? <==> j.JObj? && (outer in j.fields ==> j.fields[outer].JObj?)
    ensures r.Raises? ==> r.error == AttributeError
    ensures r.Ok? && outer !in j.fields ==> r.value == default
    ensures r.Ok? && outer in j.fields && key in j.fields[outer].fields ==>
              r.value == j.fields[outer].fields[key]
    ensures r.Ok? && outer in j.fields && key !in j.fields[outer].fields ==> r.value == default
  {
    match Get(j, outer, EmptyObject)
    case Raises(e) => Raises(e)
    case Ok(inner) => Get(inner, key, default)
  }
}
