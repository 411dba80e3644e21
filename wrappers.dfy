/** Option and Result: the absent values and error returns of the JavaScript sources. */
module Wrappers {

  /** A value that may be missing (`null`/`undefined` in the sources). */
  datatype Option<+T> = None | Some(value: T)

  /** An operation that either produces a value or stops with an error. */
  datatype Result<+T, +E> = Ok(value: T) | Err(error: E)
}
