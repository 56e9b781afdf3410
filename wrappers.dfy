/** Failure-compatible return types standing in for the exceptions the PHP code throws. */
module Wrappers {

  datatype Option<+T> = None | Some(value: T)

  /** A value, or the error the PHP code would have thrown instead of returning it. */
  datatype Result<+R, +E> = Success(value: R) | Failure(error: E)

  /** The outcome of a PHP method declared `@return void` that may throw. */
  datatype Outcome<+E> = Pass | Fail(error: E)
}
