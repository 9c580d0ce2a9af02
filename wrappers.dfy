/** Option and Result values shared by every module of the model. */
module Wrappers {

  /** A value that may be absent (Python `None`, JavaScript `undefined`/`null`). */
  datatype Option<+T> = None | Some(value: T) {
    function GetOr(default: T): T
    {
      match this
      case Some(v) => v
      case None => default
    }
  }

  /** The outcome of an operation that may raise: a value or an error message. */
  datatype Result<+T> = Ok(value: T) | Err(error: string)

  /** A Python exception as a handler sees it: `type(e).__name__` and `str(e)`. */
  datatype Raised = Raised(typeName: string, message: string)

  /** The outcome of Python code that may raise an exception of any type. */
  datatype Outcome<+T> = Value(value: T) | Failure(raised: Raised)
}
