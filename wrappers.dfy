/** Optional values: Kotlin's nullable types (`String?`, `User?`) become Option. */
module Wrappers {

  datatype Option<+T> = None | Some(value: T) {

    /** The value, or `default` when absent (Kotlin's `?:`). */
    function GetOr(default: T): T {
      match this
      case Some(v) => v
      case None => default
    }
  }

  /** A value or the error that stopped it being produced. */
  datatype Result<+T, +E> = Ok(value: T) | Err(error: E)
}
