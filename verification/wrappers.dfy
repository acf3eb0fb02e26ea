/** `Option` and `Result`, shared by the rest of the model. */
module Wrappers {

  /** An optional value: the model of a TypeScript `T | undefined`. */
  datatype Option<+T> = None | Some(value: T)

  /** The outcome of an operation that may throw: either its value or the error it propagates. */
  datatype Result<+R, +E> = Success(value: R) | Failure(error: E)
}
