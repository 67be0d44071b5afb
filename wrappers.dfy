/** Optional values, used wherever the source has `None`, a missing key or a
    query that may find no row; results for operations that can fail. */
module Wrappers {

  datatype Option<+T> = None | Some(value: T) {

    /** The value, or `default` when there is none (Python's `dict.get(key, default)`). */
    function GetOr(default: T): T {
      match this
      case Some(v) => v
      case None => default
    }
  }

  /** A value, or the reason the operation was refused. */
  datatype Result<+R, +E> = Success(value: R) | Failure(error: E)
}
