/** Option and Result, the two failure-carrying values the model uses. */
module Wrappers {

  /** A value that may be absent: a `lateinit` property before assignment, a failed parse. */
  datatype Option<+T> = None | Some(value: T)

  /** The outcome of an operation that either succeeds or throws. */
  datatype Result<+R, +E> = Success(value: R) | Failure(error: E)
}
