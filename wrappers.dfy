/** Option and Result, the two failure-compatible wrappers the model uses. */
module Wrappers {

  /** A value that may be absent (JavaScript's `undefined` for an optional property). */
  datatype Option<+T> = None | Some(value: T)

  /** The outcome of an operation that may throw: its value, or the thrown error's message. */
  datatype Result<+R, +E> = Success(value: R) | Failure(error: E)
}
