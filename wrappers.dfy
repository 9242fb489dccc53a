/** Failure-carrying values used for the Go functions' `(value, error)` and `error` returns. */
module Wrappers {

  datatype Option<+T> = None | Some(value: T)

  /** A Go `(T, error)` pair: either the value or the error, never both. */
  datatype Result<+T, +E> = Success(value: T) | Failure(error: E)

  /** A bare Go `error` return: nil (Pass) or an error value. */
  datatype Outcome<+E> = Pass | Fail(error: E)
}
