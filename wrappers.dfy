/** Option and Result, the failure-carrying types used throughout the model. */
module Wrappers {

  /** Python's `None` or a present value. */
  datatype Option<+T> = None | Some(value: T)

  /** The outcome of a computation that may raise an exception of kind E. */
  datatype Result<+T, +E> = Success(value: T) | Failure(error: E)
}
