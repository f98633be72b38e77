/** Values shared by every module of the model: optional values, results,
    the identity of an application callable, and the dynamically typed
    values a Python configuration dictionary can hold. */
module Prelude {

  datatype Option<+T> = None | Some(value: T)

  datatype Result<+T, +E> = Success(value: T) | Failure(error: E)

  /** A function the application hands over (usually through a decorator).
      The model only needs to know which function it is, not what it does. */
  datatype Handler = Handler(name: string)

  /** A Python value as found in a configuration dictionary. `Symbol` stands
      for a truthy library constant such as `ssl.CERT_REQUIRED` or
      `ssl.PROTOCOL_TLSv1`, kept opaque; a falsy constant (`ssl.CERT_NONE`
      is 0) is written as its `Int` value instead. */
  datatype Value =
    | Nil
    | Bool(b: bool)
    | Int(i: int)
    | Real(r: real)
    | Str(s: string)
    | Symbol(name: string)

  /** Python truthiness, as used by `if x:` in the source. */
  predicate Truthy(v: Value)
  {
    match v
    case Nil => false
    case Bool(b) => b
    case Int(i) => i != 0
    case Real(r) => r != 0.0
    case Str(s) => s != ""
    case Symbol(_) => true
  }
}
