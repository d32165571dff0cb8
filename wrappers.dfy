/** Option and Result, used by every module of the model. */
module Wrappers {

  /** A value that may be absent (the source's `null`). */
  datatype Option<+T> = None | Some(value: T)

  /** The outcome of an operation that can refuse its input. */
  datatype Result<+T, +E> = Ok(value: T) | Err(error: E)
}
