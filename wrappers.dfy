/** Python's `None`-or-value and value-or-exception, as datatypes. */
module Wrappers {

  datatype Option<+T> = None | Some(value: T) {
    /** Python's `x or default` for an optional value. */
    function GetOr(default: T): T {
      match this
      case Some(v) => v
      case None => default
    }
  }

  /** A call that either returns a value or raises an exception described by `error`. */
  datatype Result<+T, +E> = Success(value: T) | Failure(error: E)
}
