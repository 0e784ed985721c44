/** Optional values and results with an error, as the store's callers see them. */
module Wrappers {

  /** Python's `Optional[T]`: a value or None. */
  datatype Option<T> = None | Some(value: T) {

    /** The value, or `default` when there is none. */
    function GetOr(default: T): T
    {
      match this
      case Some(v) => v
      case None => default
    }
  }

  /** The outcome of a call that may raise: its value, or the exception it raises. */
  datatype Result<T, E> = Ok(value: T) | Err(error: E)
}
