/**
 * JavaScript values as the relay handles them: what `express.json()` can put in
 * `req.body`, plus `undefined`, which is what reading a missing property yields.
 * Numbers are reals: the relay only compares them with `undefined` or tests their
 * truthiness. Double rounding is not modelled: a literal such as `1e999` parses to
 * Infinity (serialised upstream as `null`), and one such as `1e-400` to `0`, which is falsy.
 */
module Js {
  datatype Value =
    | Undefined
    | Null
    | Bool(b: bool)
    | Num(x: real)
    | Str(s: string)
    | Arr(items: seq<Value>)
    | Obj(fields: map<string, Value>)

  /** JavaScript truthiness: `undefined`, `null`, `false`, `0` and `""` are falsy. */
  predicate Truthy(v: Value) {
    match v
    case Undefined => false
    case Null => false
    case Bool(b) => b
    case Num(x) => x != 0.0
    case Str(s) => s != ""
    case Arr(_) => true
    case Obj(_) => true
  }

  /** The expression `a || b`. */
  function Or(a: Value, b: Value): Value {
    if Truthy(a) then a else b
  }

  /**
   * Reading property `key` of `v` (`v[key]`), for the plain field names the relay
   * reads (none is an array index or an inherited property). JavaScript throws on
   * `null` and `undefined`, hence the precondition.
   */
  function Get(v: Value, key: string): Value
    requires !v.Undefined? && !v.Null?
  {
    if v.Obj? && key in v.fields then v.fields[key] else Undefined
  }

  /** What `const { key } = v || {}` binds: the property, or `undefined`. */
  function Destructure(v: Value, key: string): (r: Value)
    ensures r == (if v.Obj? && key in v.fields then v.fields[key] else Undefined)
  {
    Get(Or(v, Obj(map[])), key)
  }

  /** `{ error: message }`, the relay's own error body. */
  function ErrorObject(message: string): Value {
    Obj(map["error" := Str(message)])
  }
}
