/** Failure-compatible wrappers shared by every module of the model. */
module Wrappers {

  /** An optional value; `None` stands for Go's `nil` or zero value. */
  datatype Option<+T> = None | Some(value: T)

  /** A value or an error, for Go's `(T, error)` results. */
  datatype Result<+T, +E> = Ok(value: T) | Err(error: E)
}
