/** Failure-carrying values used in place of Go's (value, error) pairs and nil pointers. */
module Wrappers {

  /** A value that may be absent: a Go pointer that may be nil. */
  datatype Option<+T> = None | Some(value: T)

  /** A value or the error that replaced it. */
  datatype Result<+T, +E> = Success(value: T) | Failure(error: E)

  /** An operation that returns only an error, or nil. */
  datatype Outcome<+E> = Pass | Fail(error: E)
}
