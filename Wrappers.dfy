/** Failure-carrying result types shared by the other modules. */
module Wrappers {

  datatype Option<+T> = None | Some(value: T)

  /** The value of an operation that either produces a `T` or fails with an error `E` (a C++ exception). */
  datatype Result<+T, +E> = Success(value: T) | Failure(error: E)

  /** The outcome of a state-changing operation that may fail with an error `E`. */
  datatype Outcome<+E> = Pass | Fail(error: E)
}
