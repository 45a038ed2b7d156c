/** Option and Result values, the Go `(value, error)` pairs of this model. */
module Wrappers {

  /** An optional value: a Go pointer or error that may be nil. */
  datatype Option<+T> = None | Some(value: T)

  /** Either a value or an error: the two halves of a Go `(value, error)` return. */
  datatype Result<+R, +E> = Success(value: R) | Failure(error: E)
}
