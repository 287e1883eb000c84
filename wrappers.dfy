/** Failure-carrying results shared by the model's modules. */
module Wrappers {

  /** A value that may be missing. */
  datatype Option<+T> = None | Some(value: T)

  /** A Go `(value, error)` pair: either a value or an error. */
  datatype Result<+T, +E> = Success(value: T) | Failure(error: E)

  /** A Go call that returns only an `error`. */
  datatype Outcome<+E> = Pass | Fail(error: E)
}
