/** Optional values and value-or-error results, used wherever the SDK returns a nullable value
    or a call either returns or throws. */
module Wrappers {

  /** Kotlin's nullable `T?`: `None` is `null`. */
  datatype Option<+T> = None | Some(value: T) {

    /** The Elvis operator `this ?: default`. */
    function GetOr(default: T): T {
      match this
      case Some(v) => v
      case None => default
    }
  }

  /** The outcome of a call that either returns a value or throws. */
  datatype Result<+T, +E> = Ok(value: T) | Err(error: E)
}
