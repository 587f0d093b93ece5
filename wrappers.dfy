/** Optional values and results with an error, as the source's `null`/`undefined` and thrown errors. */
module Wrappers {

  /** A value that may be absent (the source's `null` or `undefined`). */
  datatype Option<+T> = None | Some(value: T) {
    /** The value when present, `default` otherwise (the source's `??`). */
    function GetOr(default: T): T {
      match this
      case Some(v) => v
      case None => default
    }
  }

  /** A computation that either produced a value or raised an error with a message. */
  datatype Result<+R, +E> = Success(value: R) | Failure(error: E)
}
