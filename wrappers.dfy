/** Optional values and success/failure results, used for JavaScript's
    `null`/`undefined` and for promises that reject. */
module Wrappers {

  datatype Option<+T> = None | Some(value: T) {
    /** `x ?? d` (or `x || d` for values that are never falsy). */
    function GetOr(default: T): (r: T)
      ensures Some? ==> r == value
      ensures None? ==> r == default
    {
      match this
      case Some(v) => v
      case None => default
    }
  }

  datatype Result<+R, +E> = Success(value: R) | Failure(error: E)
}
