/** Optional values and pass/fail outcomes used throughout the model. */
module Wrappers {

  /** A value that may be absent (TypeScript's `undefined` / `null`). */
  datatype Option<+T> = None | Some(value: T) {
    function GetOr(default: T): T {
      match this
      case Some(v) => v
      case None => default
    }
  }

  /** Either a value or an error (a function that returns or throws). */
  datatype Result<+R, +E> = Success(value: R) | Failure(error: E)

  /** Either normal completion or an error (a `void` function that may throw). */
  datatype Outcome<+E> = Pass | Fail(error: E)
}
