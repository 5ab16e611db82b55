/** Option and Result, used for JavaScript's optional values and rejected promises. */
module Wrappers {

  /** A value that may be absent (`undefined` or `null` in the application). */
  datatype Option<+T> = None | Some(value: T)

  /** The outcome of an operation that may throw or reject. */
  datatype Result<+T, +E> = Ok(value: T) | Err(error: E)
}
