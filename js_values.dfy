/** JavaScript values as the client code handles them: JSON-like data and truthiness. */
module Js {

  datatype JsValue =
    | JUndefined
    | JNull
    | JBool(b: bool)
    | JNum(x: real)
    | JNaN
    | JStr(s: string)
    | JList(items: seq<JsValue>)
    | JObj(fields: map<string, JsValue>)

  /** An object literal: its own enumerable properties. */
  type Record = map<string, JsValue>

  /** JavaScript truthiness: `undefined`, `null`, `false`, `0`, `NaN` and `""` are falsy. */
  predicate Truthy(v: JsValue) {
    match v
    case JUndefined => false
    case JNull => false
    case JBool(b) => b
    case JNum(x) => x != 0.0
    case JNaN => false
    case JStr(s) => s != ""
    case JList(_) => true
    case JObj(_) => true
  }

  /** `r.key`: a missing property reads as `undefined`. */
  function Get(r: Record, key: string): (v: JsValue)
    ensures key !in r ==> v == JUndefined
  {
    if key in r then r[key] else JUndefined
  }

  /** `a || b`: the first operand when it is truthy, the second otherwise. */
  function Or(a: JsValue, b: JsValue): (v: JsValue)
    ensures Truthy(a) ==> v == a
    ensures !Truthy(a) ==> v == b
  {
    if Truthy(a) then a else b
  }

  /** `value || []` where a list is expected: a truthy list is kept, a falsy value gives the empty list. */
  function ListOr(v: JsValue): (r: seq<JsValue>)
    ensures v.JList? ==> r == v.items
    ensures !Truthy(v) ==> r == []
  {
    match v
    case JList(items) => items
    case _ => []
  }
}
