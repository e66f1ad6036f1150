/** Failure-compatible values shared by every module of the model. */
module Wrappers {

  /** A value that may be missing. */
  datatype Option<+T> = None | Some(value: T) {
    function GetOr(default: T): T {
      match this
      case Some(v) => v
      case None => default
    }
  }

  /** The outcome of an operation that either yields a value or fails with an error. */
  datatype Result<+T, +E> = Ok(value: T) | Err(error: E)

  /** The outcome of an operation that only succeeds or fails. */
  datatype Outcome<+E> = Pass | Fail(error: E)

  /** A JSON member as a route sees or emits it: left out (`undefined`),
      explicitly `null`, or present with a value. */
  datatype Field<+T> = Absent | Null | Present(value: T)
}
