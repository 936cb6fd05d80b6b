/** Failure-compatible wrappers used across the model. */
module Wrappers {

  /** A value that may be missing; `None` stands for pandas' NaN ("no value"). */
  datatype Option<+T> = None | Some(value: T)

  /** The outcome of an operation that can raise. */
  datatype Result<+T, +E> = Ok(value: T) | Err(error: E)
}
