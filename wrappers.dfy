/** Option and Result, standing for Go's `(value, error)` pairs and nil-able errors. */
module Wrappers {

  /** A value that may be absent; `None` plays Go's `nil`. */
  datatype Option<+T> = None | Some(value: T)

  /** The outcome of an external call that either yields a value or fails with an error. */
  datatype Result<+T, +E> = Success(value: T) | Failure(error: E)
}
