/** Option, Result and Outcome datatypes shared by the server and client models. */
module Wrappers {

  /** A value that may be JavaScript's `undefined` (None). */
  datatype Option<+T> = None | Some(value: T)

  /** The outcome of an operation that may throw: Ok(value) or Err(error). */
  datatype Result<+T, +E> = Ok(value: T) | Err(error: E)

  /** The outcome of an operation that returns nothing but may throw. */
  datatype Outcome<+E> = Pass | Fail(error: E)
}
