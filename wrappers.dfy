/** Option and Result, the two shapes in which the client reports absence and failure. */
module Wrappers {

  /** A value that may be absent: Python's `None` or a missing dictionary key. */
  datatype Option<+T> = None | Some(value: T) {
    function GetOr(default: T): T {
      match this
      case Some(v) => v
      case None => default
    }
  }

  /** The outcome of an operation that raises in the source: `Err` stands for the exception. */
  datatype Result<+T, +E> = Ok(value: T) | Err(error: E)

  /** A key of a decoded JSON object. `dict.get(key, default)` yields the default only
      when the key is `Missing`; a key present with JSON `null` yields `None` instead. */
  datatype Field<+T> = Missing | Null | Value(v: T)
}
