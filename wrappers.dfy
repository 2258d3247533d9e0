/** Failure-carrying values used by every other module of the model. */
module Wrappers {

  datatype Option<+T> = None | Some(value: T)

  /** The value of a call that either succeeds with a value or fails with an error. */
  datatype Result<+T, +E> = Success(value: T) | Failure(error: E)

  /** The value of a call that returns only an error (Go's bare `error`). */
  datatype Outcome<+E> = Pass | Fail(error: E)
}
