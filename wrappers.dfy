/** Option and Result, the two failure-carrying shapes the rest of the model uses. */
module Wrappers {

  /** A value that may be absent (a Go nil error, a failed parse). */
  datatype Option<+T> = None | Some(value: T)

  /** Either a value or an error, standing for Go's `(value, error)` pairs. */
  datatype Result<+T, +E> = Success(value: T) | Failure(error: E)
}
