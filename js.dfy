/** JavaScript values as they reach the services: numbers (with NaN) and loosely typed JSON fields. */
module Js {

  /** A JavaScript number; NaN also stands for `undefined` in arithmetic comparisons. */
  datatype JsNumber = Num(value: real) | NaN

  /** A JSON field value; an absent key reads as `JNull`, which behaves like `undefined` for `||` and truthiness. */
  datatype JsValue = JNull | JBool(b: bool) | JNum(n: JsNumber) | JStr(s: string) | JObject

  /** JavaScript truthiness. */
  predicate Truthy(v: JsValue) {
    match v
    case JNull => false
    case JBool(b) => b
    case JNum(n) => n.Num? && n.value != 0.0
    case JStr(s) => s != ""
    case JObject => true
  }

  /** `m[k]`, reading an absent key as `JNull`. */
  function Get(m: map<string, JsValue>, k: string): JsValue {
    if k in m then m[k] else JNull
  }

  /** A number with no fractional part (`Number.isInteger`). */
  predicate IsInteger(n: JsNumber) {
    n.Num? && n.value == n.value.Floor as real
  }
}
