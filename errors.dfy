/**
  The two schema errors a builder call can raise (an unknown type, an unknown
  field of a known type) and the TypeError raised when the trailing parameter
  that the builder invokes as a callback is not a function.
  A JavaScript `throw` becomes an `Err`/`Fail` value; `Option` is the
  value of a lookup or a scan that may find nothing.
 */
module Errors {

  datatype Error =
    | UnknownType(typeName: string)
    | UnknownField(fieldName: string, parentType: string)
    | NotCallable

  datatype Option<+T> = None | Some(value: T)

  /** The value of an operation that either returns or throws. */
  datatype Result<+T> = Ok(value: T) | Err(error: Error)

  /** The outcome of an operation that returns nothing or throws. */
  datatype Outcome = Pass | Fail(error: Error)

  /** An outcome paired with the value an operation leaves behind when it passes. */
  function WithValue<T>(o: Outcome, v: T): (r: Result<T>)
    ensures r.Ok? <==> o.Pass?
  {
    if o.Pass? then Ok(v) else Err(o.error)
  }
}
