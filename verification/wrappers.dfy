/** Failure-carrying result types shared by every module of the model. */
module Wrappers {

  datatype Option<+T> = None | Some(value: T)

  /** A Python call that either returns a value or raises an exception. */
  datatype Result<+T, +E> = Success(value: T) | Failure(error: E)

  /** A Python call that returns `None` or raises an exception. */
  datatype Outcome<+E> = Pass | Fail(error: E)
}
