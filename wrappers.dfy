/** Failure-carrying values used in place of Python's None results and raised exceptions. */
module Wrappers {

  datatype Option<+T> = None | Some(value: T)

  datatype Result<+T, +E> = Success(value: T) | Failure(error: E)

  /** The outcome of a check that either passes or raises `error`. */
  datatype Outcome<+E> = Pass | Fail(error: E)
}
