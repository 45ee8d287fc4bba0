/** Option and Result wrappers used throughout the model. */
module Wrappers {

  /** A value that may be absent: Go's nil pointer or a missing map entry. */
  datatype Option<+T> = None | Some(value: T)

  /** A Go `(value, error)` pair where exactly one side is meaningful. */
  datatype Result<+R, +E> = Success(value: R) | Failure(error: E)
}
