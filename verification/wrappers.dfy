/** Optional and fallible values shared by every module of the model. */
module Wrappers {

  /** A value that may be absent: the TypeScript `T | null`. */
  datatype Option<+T> = None | Some(value: T) {

    /** The `x || fallback` idiom for a possibly-missing value. */
    function GetOr(fallback: T): T {
      match this
      case Some(v) => v
      case None => fallback
    }
  }

  /** The outcome of an operation that either returns or throws. */
  datatype Result<+T, +E> = Ok(value: T) | Err(error: E)
}
