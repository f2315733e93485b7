/** Failure-compatible wrappers shared by every module of the model. */
module Wrappers {

  /** Python's `None`-or-value. */
  datatype Option<+T> = None | Some(value: T) {

    /** The value, or `default` when there is none (Python's `x if x is not None else default`). */
    function GetOr(default: T): T {
      match this
      case Some(v) => v
      case None() => default
    }
  }

  /** Either a value or the exception that a Python operation raised instead. */
  datatype Result<+R, +E> = Success(value: R) | Failure(error: E)
}
