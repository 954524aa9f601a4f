/** Failure-carrying return values standing in for Go's `(value, error)` pairs
    and for its nil pointers. */
module Wrappers {

  /** A possibly-absent value: a Go pointer that may be nil. */
  datatype Option<+T> = None | Some(value: T)

  /** A value or an error: a Go `(T, error)` return. */
  datatype Result<+T, +E> = Ok(value: T) | Err(error: E)

  /** Success or an error, with no value: a Go `error` return. */
  datatype Outcome<+E> = Pass | Fail(error: E)
}
