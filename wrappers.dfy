/** The optional value used throughout the model for JavaScript's `undefined`/`null`
    and Python's `None`, and the outcome of an operation that may raise. */
module Wrappers {
  datatype Option<+T> = None | Some(value: T) {
    function GetOr(default: T): T {
      match this
      case Some(v) => v
      case None => default
    }
  }

  /** A value, or the message of the exception raised instead. */
  datatype Result<+T> = Ok(value: T) | Failure(error: string)
}
