/** Optional values and results with an error, the two shapes that a loosely
    typed JavaScript value (a field that may be missing, a call that may
    throw) takes in this model. */
module Wrappers {

  /** A value that may be absent (`undefined`, `null` or unparsable in the source). */
  datatype Option<+T> = None | Some(value: T) {

    /** The value, or `default` when it is absent. */
    function GetOr(default: T): T {
      match this
      case Some(v) => v
      case None => default
    }
  }

  /** The outcome of a call that either delivers a value or fails with an error. */
  datatype Result<+R, +E> = Success(value: R) | Failure(error: E)
}
