/**
  The JavaScript values the client receives from its callers and from the
  server, with the two pieces of JavaScript semantics the client relies on:
  truthiness (`!x`, `x || y`) and optional-chaining property lookup (`x?.k`).
 */
module JsValue {

  /** A JavaScript value. `Undefined` also stands for a property or argument
      the caller did not supply. Numbers are modelled as reals (NaN is not). */
  datatype Value =
    | Undefined
    | Null
    | Bool(b: bool)
    | Num(n: real)
    | Str(s: string)
    | Arr(elems: seq<Value>)
    | Obj(props: map<string, Value>)

  /** JavaScript's ToBoolean: `undefined`, `null`, `false`, `0` and `""` are
      falsy; every other value, including empty arrays and objects, is truthy. */
  predicate Truthy(v: Value) {
    match v
    case Undefined => false
    case Null => false
    case Bool(b) => b
    case Num(n) => n != 0.0
    case Str(s) => s != ""
    case Arr(_) => true
    case Obj(_) => true
  }

  /** `a || b`: the left operand when it is truthy, otherwise the right one. */
  function Or(a: Value, b: Value): (r: Value)
    ensures r == a || r == b
    ensures Truthy(r) <==> Truthy(a) || Truthy(b)
    ensures Truthy(a) ==> r == a
    ensures !Truthy(a) ==> r == b
  {
    if Truthy(a) then a else b
  }

  /** `v?.key` for the keys this client reads (`message`, `error`,
      `retry_after`): an own property of an object, and `undefined` for
      `null`, `undefined`, a missing key, or a value that is not an object. */
  function Get(v: Value, key: string): (r: Value)
    ensures (v.Undefined? || v.Null?) ==> r.Undefined?
    ensures v.Obj? && key in v.props ==> r == v.props[key]
    ensures !r.Undefined? ==> v.Obj? && key in v.props
  {
    if v.Obj? && key in v.props then v.props[key] else Undefined
  }

  /** `Array.isArray(v) && v.length !== 0`. */
  predicate IsNonEmptyArray(v: Value) {
    v.Arr? && |v.elems| > 0
  }
}
