/** Failure-compatible wrappers shared by the inventory modules. */
module Wrappers {

  /** A value that may be absent: PHP's `null` in the modelled code. */
  datatype Option<+T> = None | Some(value: T)

  /** The result of an operation that either returns a value or throws. */
  datatype Result<+R, +E> = Success(value: R) | Failure(error: E)

  /** The result of an operation that returns nothing (`void`) or throws. */
  datatype Outcome<+E> = Pass | Fail(error: E)
}
