/**
 * The slice of JavaScript value semantics that the action creators rely on:
 * truthiness (`if (x)`, `!x`, `x || {}`), property reads and own-property tests.
 */
module JsValues {

  /** A JavaScript value as it can sit in the state tree. Numbers are integers here. */
  datatype JsValue =
    | Undefined
    | Null
    | Bool(b: bool)
    | Num(n: int)
    | Str(s: string)
    | Obj(fields: map<string, JsValue>)

  /** ECMAScript ToBoolean: `undefined`, `null`, `false`, `0` and `""` are falsy, every object is truthy. */
  predicate Truthy(v: JsValue)
  {
    match v
    case Undefined => false
    case Null => false
    case Bool(b) => b
    case Num(n) => n != 0
    case Str(s) => s != ""
    case Obj(_) => true
  }

  /** `v[key]` on an object; reading a property of any other value gives `undefined`. */
  function GetProp(v: JsValue, key: string): JsValue
  {
    if v.Obj? && key in v.fields then v.fields[key] else Undefined
  }

  /** `v.hasOwnProperty(key)`. */
  predicate HasOwn(v: JsValue, key: string)
  {
    v.Obj? && key in v.fields
  }

  /** `a || b`. */
  function Or(a: JsValue, b: JsValue): JsValue
  {
    if Truthy(a) then a else b
  }

  /** `table[key]` on an identifier-keyed entity table; a missing key reads as `undefined`. */
  function Lookup(table: map<string, JsValue>, key: string): JsValue
  {
    if key in table then table[key] else Undefined
  }

  const EMPTY_OBJECT: JsValue := Obj(map[])
}
