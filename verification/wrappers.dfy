/** Option and Result, the two failure-carrying shapes the model needs. */
module Wrappers {

  /** Python's `None` or a present value. */
  datatype Option<+T> = None | Some(value: T)

  /** The outcome of a step that may raise: a value, or the exception that escaped. */
  datatype Result<+T, +E> = Success(value: T) | Failure(error: E)
}
