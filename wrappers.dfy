/** Option and Result, the two failure-carrying wrappers the model uses. */
module Wrappers {

  datatype Option<+T> = None | Some(value: T)

  /** Success carries the value an operation returns; Failure what it throws. */
  datatype Result<+R, +E> = Success(value: R) | Failure(error: E)
}
