/** Option and Result, the two failure-carrying values the model returns. */
module Wrappers {

  /** A value that may be absent: an attribute that was never set, a failed lookup. */
  datatype Option<+T> = None | Some(value: T)

  /** The outcome of an operation that may raise: a value or the error raised. */
  datatype Result<+R, +E> = Ok(value: R) | Err(error: E)
}
