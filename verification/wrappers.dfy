/** Option and Result values shared by every module of the model. */
module Wrappers {

  /** A value that may be missing: JavaScript's `null` / `undefined`. */
  datatype Option<+T> = None | Some(value: T)

  /** The outcome of a validation step: a value or the reasons it was refused. */
  datatype Result<+T, +E> = Success(value: T) | Failure(error: E)
}
