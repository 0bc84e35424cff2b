/** Option and Result, the two failure-carrying wrappers the rest of the model uses. */
module Wrappers {

  /** A value that may be absent (the source's `T | null`). */
  datatype Option<+T> = None | Some(value: T)

  /** The outcome of an operation that may throw (the source's exceptions). */
  datatype Result<+R, +E> = Success(value: R) | Failure(error: E)
}
