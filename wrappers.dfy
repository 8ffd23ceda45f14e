/** Failure-compatible result types shared by every module of the model. */
module Wrappers {

  /** A present value or nothing (JavaScript's `undefined` / `null`). */
  datatype Option<+T> = None | Some(value: T) {
    function GetOr(default: T): T {
      match this
      case Some(v) => v
      case None => default
    }
  }

  /** The value a call returns, or the error it throws. */
  datatype Result<+R, +E> = Success(value: R) | Failure(error: E)

  /** The completion of a call that returns nothing, or the error it throws. */
  datatype Outcome<+E> = Pass | Fail(error: E)
}
