/** The `Option` and `Result` datatypes used across the model. */
module Wrappers {
  datatype Option<+T> = None | Some(value: T)

  /** A value or the error that a thrown exception would have carried. */
  datatype Result<+R, +E> = Success(value: R) | Failure(error: E)
}
