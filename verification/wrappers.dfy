/** Failure-compatible result types used across the model. */
module Wrappers {

  /** A value that may be absent (Go's nil / "not ok"). */
  datatype Option<+T> = None | Some(value: T)

  /** A computation that yields a value or an error (Go's `(T, error)` pair). */
  datatype Result<+T, +E> = Success(value: T) | Failure(error: E)

  /** A computation that yields only an error or nothing (Go's bare `error`). */
  datatype Outcome<+E> = Pass | Fail(error: E)
}
