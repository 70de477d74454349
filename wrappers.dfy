/** Small failure-carrying datatypes shared by the model's modules. */
module Wrappers {

  /** A value that may be absent: Go's nil pointer or nil error. */
  datatype Option<+T> = None | Some(value: T)

  /** The outcome of a call that either produces a value or fails with an error. */
  datatype Result<+T, +E> = Ok(value: T) | Err(error: E)
}
