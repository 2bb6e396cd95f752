/** Option and Result, the two wrapper types the model uses. */
module Wrappers {

  /** A value that may be absent; stands for PHP's null. */
  datatype Option<+T> = None | Some(value: T)

  /** The outcome of a call that can throw: a value, or the exception it raised. */
  datatype Result<+T, +E> = Ok(value: T) | Err(error: E)
}
