/** Option and Result values used where the driver returns null or throws. */
module Wrappers {

  /** A value that may be absent (Java's null). */
  datatype Option<+T> = None | Some(value: T)

  /** Either a value or the exception that replaced it. */
  datatype Result<+R, +E> = Success(value: R) | Failure(error: E)

  /** A call that returns nothing on success, or the exception it threw. */
  datatype Outcome<+E> = Pass | Fail(error: E)
}
