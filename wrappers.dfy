/** Failure-compatible wrappers used for PHP's `null` values and exceptions. */
module Wrappers {

  /** A value that may be absent; PHP's `null` becomes `None`. */
  datatype Option<+T> = None | Some(value: T)

  /** The result of an operation that may throw: `Failure` carries the exception. */
  datatype Result<+R, +E> = Success(value: R) | Failure(error: E)

  /** The result of a check that returns nothing or throws. */
  datatype Outcome<+E> = Pass | Fail(error: E)
}
