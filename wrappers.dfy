/** Optional values and success/failure outcomes, standing in for PHP's
    nullable values and thrown exceptions. */
module Wrappers {

  /** A nullable value: `None` is PHP's `null`. */
  datatype Option<+T> = None | Some(value: T) {

    /** PHP's null-coalescing `$x ?? $default`. */
    function GetOr(default: T): T {
      match this
      case Some(v) => v
      case None => default
    }
  }

  /** The outcome of a call that either returns a value or throws. */
  datatype Result<+R, +E> = Success(value: R) | Failure(error: E)
}
