/** Option and Result, as used throughout the model. */
module Wrappers {

  /** `None` stands for a missing value (pandas NaN). */
  datatype Option<+T> = None | Some(value: T)

  /** `Err` carries the exception a Python operation would raise. */
  datatype Result<+T, +E> = Ok(value: T) | Err(error: E)
}
