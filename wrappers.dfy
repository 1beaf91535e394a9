/** Option and Result, the wrappers used throughout the model. */
module Wrappers {

  datatype Option<+T> = None | Some(value: T)

  /** A thrown JavaScript error is modelled as a `Failure` carrying its message. */
  datatype Result<+R, +E> = Success(value: R) | Failure(error: E)
}
