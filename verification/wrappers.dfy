/** Optional values and results, used for pandas' missing values (NaN) and for error returns. */
module Wrappers {

  /** A value that may be missing: `None` plays the part of pandas' NaN. */
  datatype Option<+T> = None | Some(value: T) {

    /** The value, or `default` when it is missing (pandas' `fillna(default)`). */
    function GetOr(default: T): T {
      match this
      case Some(v) => v
      case None => default
    }
  }

  /** Either a value or the reason why there is none. */
  datatype Result<+R, +E> = Success(value: R) | Failure(error: E)
}
