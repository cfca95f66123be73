/** Values as the JavaScript server sees them: nullable references and the
    untyped payload fields that arrive from clients. */
module Js {

  /** `null` (or a missing property) versus a present value. */
  datatype Option<+T> = None | Some(value: T)

  /** The outcome of a check that either passes with a value or rejects
      with an error. */
  datatype Result<+T, +E> = Ok(value: T) | Err(error: E)

  /** The JavaScript values a client payload field can hold. Numbers are kept
      as integers: no payload path of the server does arithmetic on them. */
  datatype JsValue =
    | Undefined
    | Null
    | Bool(b: bool)
    | Number(n: int)
    | Str(s: string)
    | Object

  /** JavaScript truthiness (`!!v`). */
  predicate Truthy(v: JsValue)
  {
    match v
    case Undefined => false
    case Null => false
    case Bool(b) => b
    case Number(n) => n != 0
    case Str(s) => s != ""
    case Object => true
  }
}
