/** Option and Result carriers for the nil pointers and error returns of the Go code. */
module Wrappers {

  /** A possibly absent value: a Go pointer that may be nil. */
  datatype Option<+T> = None | Some(value: T)

  /** A value or an error: the `(value, error)` pair every Go helper returns. */
  datatype Result<+T, +E> = Ok(value: T) | Err(error: E)
}
