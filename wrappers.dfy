/** Optional values and results, used for dictionary lookups with a default and for calls that may raise. */
module Wrappers {

  datatype Option<+T> = None | Some(value: T) {

    /** Python's `d.get(key, default)` once the lookup is an Option. */
    function GetOr(default: T): T {
      match this
      case Some(v) => v
      case None => default
    }
  }

  /** The value a Python call returns, or the text (`str(e)`) of the exception it raises. */
  datatype Result<+T, +E> = Success(value: T) | Failure(error: E)
}
