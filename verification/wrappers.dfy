/** Failure-carrying results of an operation. */
module Wrappers {

  /** A value, or the failure that prevented computing it. */
  datatype Result<+R, +E> = Success(value: R) | Failure(error: E)

  /** Success without a value, or a failure. */
  datatype Outcome<+E> = Pass | Fail(error: E)
}
