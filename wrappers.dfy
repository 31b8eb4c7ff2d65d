/** Option and Result values for the Go sources' `(value, error)` returns and nil pointers. */
module Wrappers {

  datatype Option<+T> = None | Some(value: T)

  datatype Result<+T, +E> = Success(value: T) | Failure(error: E)

  /** An operation that returns only an error (Go's `error` result): nil or not. */
  datatype Outcome<+E> = Pass | Fail(error: E)
}
