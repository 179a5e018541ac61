/** Failure-carrying values shared by every module of the model. */
module Wrappers {

  /** A value that may be absent: Go's nil interface or a missing map key. */
  datatype Option<+T> = None | Some(value: T)

  /** The result of a Go operation returning `(T, error)`. */
  datatype Result<+T, +E> = Ok(value: T) | Err(error: E)
}
