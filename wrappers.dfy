/** Optional values (JavaScript's `undefined`/`null` next to a present value) and outcomes that may fail. */
module Wrappers {

  datatype Option<+T> = None | Some(value: T) {

    /** The value, or `default` when absent (JavaScript's `??`). */
    function GetOr(default: T): T {
      match this
      case Some(v) => v
      case None => default
    }
  }

  /** A value, or the error that took its place (a caught exception). */
  datatype Result<+T, +E> = Success(value: T) | Failure(error: E)
}
