/** Option and Result values shared by the model's modules. */
module Wrappers {

  datatype Option<+T> = None | Some(value: T)

  /** A computation that either produces a value or raises an error that escapes to the caller. */
  datatype Result<+T, +E> = Success(value: T) | Failure(error: E)
}
