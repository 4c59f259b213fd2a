/** Option and Result values used in place of JavaScript's undefined and thrown exceptions. */
module Wrappers {

  datatype Option<+T> = None | Some(value: T) {
    /** The value, or `default` when there is none (JavaScript's `x ?? default`). */
    function GetOr(default: T): T {
      match this
      case Some(v) => v
      case None => default
    }
  }

  /** Either a value or the thing that was thrown. */
  datatype Result<+T, +E> = Ok(value: T) | Err(error: E)
}
