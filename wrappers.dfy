/** Option and Result, the two failure-carrying shapes every other module uses. */
module Wrappers {

  /** A value that may be absent (`undefined` in the source). */
  datatype Option<+T> = None | Some(value: T)

  /** Either a success value or a typed error (an Effect success or failure in the source). */
  datatype Result<+T, +E> = Ok(value: T) | Err(error: E)
}
