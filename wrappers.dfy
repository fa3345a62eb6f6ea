/** Option and Result, the two shapes every fallible step of the model returns. */
module Wrappers {

  /** A value that may be absent: JavaScript's `undefined`/`null` in the model. */
  datatype Option<+T> = None | Some(value: T)

  /** The outcome of a step that may throw: its value, or the error it throws. */
  datatype Result<+T, +E> = Success(value: T) | Failure(error: E)
}
