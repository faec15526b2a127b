/** Optional values and results shared by the other modules. */
module Wrappers {

  /** A value that may be absent: JavaScript's `undefined` field, Python's missing key. */
  datatype Option<+T> = None | Some(value: T) {
    function GetOr(default: T): T {
      match this
      case Some(v) => v
      case None => default
    }
  }

  /** The outcome of an operation that can raise. */
  datatype Result<+T, +E> = Ok(value: T) | Err(error: E)
}
