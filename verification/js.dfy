/**
  JavaScript values as far as the server core inspects them: truthiness
  (`Boolean(x)`, `!!x`, `x || y`) and `typeof x === 'string'`.
 */
module Js {
  import opened Wrappers

  /** An arbitrary value received from a collaborator or a request body. */
  datatype Value =
    | Undefined
    | Null
    | Bool(b: bool)
    | Number(n: real)
    | NaN
    | Str(s: string)
    | Object

  /** JavaScript's ToBoolean. */
  predicate Truthy(v: Value) {
    match v
    case Undefined => false
    case Null => false
    case NaN => false
    case Bool(b) => b
    case Number(n) => n != 0.0
    case Str(s) => s != ""
    case Object => true
  }

  /** The string inside `v` when `typeof v === 'string'`. */
  function AsString(v: Value): (r: Option<string>)
    ensures r.Some? <==> v.Str?
    ensures r.Some? ==> v == Str(r.value)
  {
    match v
    case Str(s) => Some(s)
    case _ => None
  }
}
