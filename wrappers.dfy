/** Failure-compatible result types shared by every module of the model. */
module Wrappers {

  /** A value that may be absent: a Go nil pointer, a missing map entry. */
  datatype Option<+T> = None | Some(value: T)

  /** The outcome of an operation that can fail with an error of type E. */
  datatype Result<+T, +E> = Success(value: T) | Failure(error: E)
}
