/** The two result shapes shared by every module. */
module Wrappers {

  datatype Option<+T> = None | Some(value: T)

  /** A Go `(value, error)` pair in which exactly one half is meaningful. */
  datatype Result<+T, +E> = Ok(value: T) | Err(error: E)
}
