/** Small pieces of JavaScript's value model that the client relies on:
    optional values (null/undefined), loosely typed scalars and truthiness. */
module Js {

  /** A value that may be absent (`null` or `undefined` in the client). */
  datatype Option<+T> = None | Some(value: T) {
    function GetOr(default: T): T {
      match this
      case Some(v) => v
      case None => default
    }
  }

  /** A loosely typed scalar as it appears in action payloads and records. */
  datatype JsValue = JUndefined | JNull | JBool(b: bool) | JNum(n: int) | JStr(s: string)

  /** JavaScript truthiness of a scalar: `false`, `0`, `''`, `null` and `undefined` are falsy. */
  predicate Truthy(v: JsValue) {
    match v
    case JUndefined => false
    case JNull => false
    case JBool(b) => b
    case JNum(n) => n != 0
    case JStr(s) => s != ""
  }

  /** Truthiness of a numeric id (a layer or dataset id); 0 stands for every falsy id. */
  predicate TruthyId(id: int) {
    id != 0
  }

  /** Truthiness of a string. */
  predicate TruthyStr(s: string) {
    s != ""
  }

  /** `v || d`. */
  function OrElse(v: JsValue, d: JsValue): (r: JsValue)
    ensures Truthy(v) ==> r == v
    ensures !Truthy(v) ==> r == d
  {
    if Truthy(v) then v else d
  }
}
