/** Failure-compatible result types shared by the modules of this project. */
module Wrappers {

  /** A value that may be absent (PHP's `null`). */
  datatype Option<+T> = None | Some(value: T)

  /** Either a value or the error that was raised instead of returning one. */
  datatype Result<+R, +E> = Success(value: R) | Failure(error: E)
}
