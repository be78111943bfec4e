/** Values shared by every part of the model: an optional value and the
    JSON values that travel between the Android client, the Node back end
    and the inference services. */
module Values {

  datatype Option<+T> = None | Some(value: T)
  {
    function GetOr(default: T): (r: T)
      ensures Some? ==> r == value
      ensures None? ==> r == default
    {
      match this
      case Some(v) => v
      case None => default
    }
  }

  /** A JSON value as JavaScript code sees it after `JSON.parse`. A key that is
      absent from an object is JavaScript's `undefined`; numbers are exact
      rationals (floating-point rounding is not modelled). */
  datatype Json =
    | JNull
    | JBool(b: bool)
    | JNum(n: real)
    | JStr(s: string)
    | JArr(items: seq<Json>)
    | JObj(fields: map<string, Json>)

  /** JavaScript truthiness of a property read: `undefined` (absent), `null`,
      `false`, `0` and `""` are falsy; every array and object is truthy. */
  predicate Truthy(v: Option<Json>)
  {
    match v
    case None => false
    case Some(j) =>
      match j
      case JNull => false
      case JBool(b) => b
      case JNum(n) => n != 0.0
      case JStr(s) => s != ""
      case JArr(_) => true
      case JObj(_) => true
  }

  /** The property read `o.key` on a JSON object (absent key: `undefined`). */
  function Get(o: map<string, Json>, key: string): (r: Option<Json>)
    ensures r.Some? <==> key in o
    ensures key in o ==> r.value == o[key]
  {
    if key in o then Some(o[key]) else None
  }

  /** JavaScript `a || b`: the left operand when it is truthy, else the right. */
  function JsOr(a: Option<Json>, b: Option<Json>): (r: Option<Json>)
    ensures Truthy(a) ==> r == a
    ensures !Truthy(a) ==> r == b
  {
    if Truthy(a) then a else b
  }
}
