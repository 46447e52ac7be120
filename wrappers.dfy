/** Option and Result, the failure-carrying shapes used throughout the model. */
module Wrappers {

  /** A value that may be absent (JavaScript's `null`/`undefined` where it is a result). */
  datatype Option<+T> = None | Some(value: T)

  /** The outcome of a step that may throw: a value, or the error it throws. */
  datatype Result<+T, +E> = Ok(value: T) | Err(error: E)
}
