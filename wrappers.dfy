/** Option and Result, the two ways an operation of the bot reports "no value" and "failed". */
module Wrappers {

  datatype Option<+T> = None | Some(value: T) {
    /** The wrapped value, or `default` when there is none (Python's `dict.get(key, default)`). */
    function GetOr(default: T): T {
      match this
      case Some(v) => v
      case None => default
    }
  }

  /** An operation that either produces a value or raises the given error. */
  datatype Result<+R, +E> = Success(value: R) | Failure(error: E)
}
