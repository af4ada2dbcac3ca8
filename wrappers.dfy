/** Optional values and results with an error, as used across the model. */
module Wrappers {

  /** A value that may be missing: Python's None, a missing dictionary key, an empty query row. */
  datatype Option<T> = None | Some(value: T) {
    /** The value, or `default` when missing (Python's `d.get(k, default)`). */
    function GetOr(default: T): T {
      match this
      case Some(v) => v
      case None => default
    }
  }

  /** The outcome of an operation that can fail with an error of type E. */
  datatype Result<T, E> = Ok(value: T) | Err(error: E)
}
