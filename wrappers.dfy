/** Optional values and results with an error, as the decoders and hooks use them. */
module Wrappers {

  /** A value that may be absent (`undefined` or `null` in the source). */
  datatype Option<+T> = None | Some(value: T) {
    function GetOr(default: T): T {
      match this
      case Some(v) => v
      case None => default
    }
  }

  /** A computation that either returns a value or throws. */
  datatype Result<+R, +E> = Success(value: R) | Failure(error: E)
}
