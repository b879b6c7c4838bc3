/** Optional values: `None` stands for JavaScript's `null` / `undefined` (or NaN for a parse). */
module Wrappers {

  datatype Option<+T> = None | Some(value: T) {

    /** The value, or `default` when absent (the `x ?? default` of the source). */
    function GetOr(default: T): T {
      match this
      case Some(v) => v
      case None => default
    }
  }

  /** The outcome of an operation that can throw: a value, or the message of the error. */
  datatype Result<+R> = Success(value: R) | Failure(message: string)
}
