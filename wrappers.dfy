/** Option, Result and Outcome values for the governance SDK model, and the
    error taxonomy the SDK's operations report (not found, already exists,
    invalid state, validation error), each carrying its message. */
module Wrappers {

  datatype Option<+T> = None | Some(value: T)

  /** The four kinds of value-style error the SDK returns. */
  datatype Error =
    | NotFound(msg: string)
    | AlreadyExists(msg: string)
    | InvalidState(msg: string)
    | ValidationError(msg: string)

  /** A result of an operation that returns a value or an error. */
  datatype Result<+T> = Ok(value: T) | Err(error: Error)

  /** A result of an operation that returns only an error (Go's bare `error`). */
  datatype Outcome = Pass | Fail(error: Error)

  /** `fmt.Errorf("<prefix>%w", err)`: the kind is kept, the message is prefixed. */
  function Wrap(prefix: string, e: Error): (r: Error)
    ensures r.msg == prefix + e.msg
    ensures (r.NotFound? <==> e.NotFound?) && (r.AlreadyExists? <==> e.AlreadyExists?)
    ensures (r.InvalidState? <==> e.InvalidState?) && (r.ValidationError? <==> e.ValidationError?)
  {
    match e
    case NotFound(m) => NotFound(prefix + m)
    case AlreadyExists(m) => AlreadyExists(prefix + m)
    case InvalidState(m) => InvalidState(prefix + m)
    case ValidationError(m) => ValidationError(prefix + m)
  }
}
