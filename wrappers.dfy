/** Failure-compatible wrappers used to model Java's null and thrown exceptions. */
module Wrappers {

  /** A value or its absence (Java's null). */
  datatype Option<+T> = None | Some(value: T) {
    function GetOr(default: T): T {
      match this
      case Some(v) => v
      case None => default
    }
  }

  /** A value, or the exception that was thrown instead. */
  datatype Result<+R, +E> = Success(value: R) | Failure(error: E)

  /** A call that returns nothing, or the exception that it threw. */
  datatype Outcome<+E> = Pass | Fail(error: E)
}
