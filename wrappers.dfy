/** Failure-carrying values used by every module of the model: Java's `null` results become
    `Option`, thrown exceptions become the failure side of `Result` or `Outcome`. */
module Wrappers {

  datatype Option<+T> = None | Some(value: T)

  datatype Result<+R, +E> = Success(value: R) | Failure(error: E)

  /** The outcome of an operation that produces no value, only success or an error. */
  datatype Outcome<+E> = Pass | Fail(error: E)
}
