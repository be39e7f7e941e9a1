/** Failure-carrying values shared by the modules of this project. */
module Wrappers {

  datatype Option<+T> = None | Some(value: T)

  /** Either a value or the error that a Python exception would have raised. */
  datatype Result<+T, +E> = Ok(value: T) | Err(error: E)
}
