/** Option and Result values for the model: `undefined` and thrown errors of the source. */
module Wrappers {

  datatype Option<+T> = None | Some(value: T)

  /** The outcome of a call that may throw: the returned value or the thrown error. */
  datatype Result<+R, +E> = Success(value: R) | Failure(error: E)
}
