/** Optional values and results with an error, shared by the scan scene and the
    send-confirmation selectors. */
module Wrappers {

  /** A value that may be missing (`null` / `undefined` in the wallet's state). */
  datatype Option<+T> = None | Some(value: T) {

    /** The carried value, or `default` when there is none. */
    function GetOr(default: T): (r: T)
      ensures Some? ==> r == value
      ensures None? ==> r == default
    {
      match this
      case Some(v) => v
      case None => default
    }
  }

  /** The outcome of an expression that may throw. */
  datatype Result<+T, +E> = Ok(value: T) | Err(error: E)
}
