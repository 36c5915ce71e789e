/** Option and Result, standing for Kotlin's nullable types and thrown exceptions. */
module Wrappers {

  /** A value that may be absent (Kotlin `T?`). */
  datatype Option<+T> = None | Some(value: T) {

    /** The value, or `default` when absent (Kotlin `?:`). */
    function GetOr(default: T): T {
      match this
      case Some(v) => v
      case None => default
    }
  }

  /** A computation that either produced a value or failed with an error. */
  datatype Result<+R, +E> = Success(value: R) | Failure(error: E)
}
