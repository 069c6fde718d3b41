/** Option and Result: absent values and the error paths of the modelled handlers. */
module Wrappers {

  /** A value that may be missing (`undefined` in the source). */
  datatype Option<+T> = None | Some(value: T)

  /** The outcome of an operation that can fail with an error of type E. */
  datatype Result<+T, +E> = Ok(value: T) | Err(error: E)
}
