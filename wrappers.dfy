/** Option and Result, the two failure-carrying wrappers the rest of the model uses. */
module Wrappers {

  /** A value that may be absent: a nil pointer, an empty channel slot. */
  datatype Option<+T> = None | Some(value: T)

  /** A value or an error: Go's `(value, error)` pair where exactly one side is meaningful. */
  datatype Result<+T, +E> = Success(value: T) | Failure(error: E)
}
