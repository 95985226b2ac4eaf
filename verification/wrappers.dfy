/** Option and Result values shared by the other modules. */
module Wrappers {

  /** A value that may be absent; also stands for a Go pointer that may be nil. */
  datatype Option<+T> = None | Some(value: T)

  /** A Go `(value, error)` pair where exactly one side is meaningful. */
  datatype Result<+R, +E> = Success(value: R) | Failure(error: E)
}
