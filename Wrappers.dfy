/** Optional values and results, standing for JavaScript's `undefined`/`null` and thrown errors. */
module Wrappers {

  /** A value that may be absent (`undefined` or `null` in the application). */
  datatype Option<+T> = None | Some(value: T) {
    function GetOr(default: T): T {
      match this
      case Some(v) => v
      case None => default
    }
  }

  /** The outcome of an operation that either returns a value or throws an error. */
  datatype Result<+R, +E> = Ok(value: R) | Err(error: E)
}
