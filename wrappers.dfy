/** Option and Result, the two failure-compatible wrappers the model uses. */
module Wrappers {

  /** A value that may be absent: Python's `None` or a present value. */
  datatype Option<+T> = None | Some(value: T)

  /** The outcome of an operation that either returns a value or raises. */
  datatype Result<+T, +E> = Ok(value: T) | Err(error: E)
}
