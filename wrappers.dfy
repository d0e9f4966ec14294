/** Optional values and results with an error, used wherever the source has
    `undefined` / `null` or throws. */
module Wrappers {

  /** `undefined` or `null` (None) versus a present value (Some). */
  datatype Option<+T> = None | Some(value: T) {

    /** The `??` operator: the value if present, otherwise `default`. */
    function GetOr(default: T): T {
      if Some? then value else default
    }
  }

  /** A value, or the error that the source would have thrown. */
  datatype Result<+T, +E> = Success(value: T) | Failure(error: E)
}
