/** Failure-carrying values used in place of Go's `(value, error)` pairs and panics. */
module Wrappers {

  datatype Option<+T> = None | Some(value: T)

  datatype Result<+T, +E> = Success(value: T) | Failure(error: E)
}
