/** Option and Result wrappers shared by the modules of this model. */
module Wrappers {

  /** A value that may be absent: PHP's nullable `?T`. */
  datatype Option<+T> = None | Some(value: T)

  /** The outcome of a call that either returns a value or throws. */
  datatype Result<+R, +E> = Success(value: R) | Failure(error: E)
}
