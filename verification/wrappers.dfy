/** Failure-carrying values shared by every module of the model. */
module Wrappers {

  /** A value that may be absent (a Java `null`). */
  datatype Option<+T> = None | Some(value: T)

  /** The outcome of an operation that may throw: a value or an error. */
  datatype Result<+T, +E> = Ok(value: T) | Err(error: E)
}
