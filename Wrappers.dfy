/** Failure-carrying results shared by the modules of this project. */
module Wrappers {

  /** A value that may be undefined (a ratio whose denominator is zero). */
  datatype Option<+T> = None | Some(value: T)

  /** The outcome of an operation that can raise: a value, or the error it raised. */
  datatype Result<+T, +E> = Success(value: T) | Failure(error: E)
}
