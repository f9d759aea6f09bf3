/** Failure-carrying values shared by every module of the model. */
module Wrappers {

  /** `Option<T>` of the source: a value or nothing. */
  datatype Option<+T> = None | Some(value: T)

  /** `Result<T, E>` of the source: a value or an error. */
  datatype Result<+T, +E> = Ok(value: T) | Err(error: E)
}
