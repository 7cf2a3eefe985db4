/** Failure-compatible wrappers shared by the modules of this model. */
module Wrappers {

  /** A value that may be absent (Python's None, a C error indicator that may be unset). */
  datatype Option<+T> = None | Some(value: T)

  /** The outcome of an operation that either produces a value or raises an error. */
  datatype Result<+R, +E> = Success(value: R) | Failure(error: E)
}
