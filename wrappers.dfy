/** Optional values and results with an error, used for JavaScript's
    null/undefined/NaN and for exceptions that escape an operation. */
module Wrappers {

  datatype Option<+T> = None | Some(value: T) {
    function GetOr(default: T): T {
      match this
      case Some(v) => v
      case None => default
    }
  }

  /** `Failure(message)` stands for an exception thrown with that message. */
  datatype Result<+R> = Success(value: R) | Failure(error: string)
}
