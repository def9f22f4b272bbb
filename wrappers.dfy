/** Optional values and throwing results, the two shapes Swift's `T?` and
    `throws` take in this model. */
module Wrappers {

  datatype Option<+T> = None | Some(value: T) {
    /** Swift's `??`: the wrapped value, or the fallback when absent. */
    function GetOr(fallback: T): T {
      match this
      case Some(v) => v
      case None => fallback
    }
  }

  /** The outcome of a call that may throw: a value or the thrown error. */
  datatype Result<+R, +E> = Success(value: R) | Failure(error: E) {
    /** Swift's `try?`: the value, or nil when the call threw. */
    function ToOption(): Option<R> {
      match this
      case Success(v) => Some(v)
      case Failure(_) => None
    }
  }
}
