/** Failure-carrying result types shared by every module of the model. */
module Wrappers {

  datatype Option<+T> = None | Some(value: T)

  /** The source's `Result<T, String>`; the error is a tag naming which check failed. */
  datatype Result<+T, +E> = Ok(value: T) | Err(error: E)
}
