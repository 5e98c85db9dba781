/** Failure-carrying values used across the model in place of JavaScript's
    `undefined`/`null` and thrown exceptions. */
module Wrappers {

  datatype Option<+T> = None | Some(value: T)

  datatype Result<+R, +E> = Success(value: R) | Failure(error: E)

  /** An operation that produces no value but may fail. */
  datatype Outcome<+E> = Pass | Fail(error: E)
}
