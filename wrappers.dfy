/** Option and Result values used across the model. `None` stands for a JavaScript
    `null`/`undefined` where the source distinguishes neither. */
module Wrappers {

  datatype Option<+T> = None | Some(value: T) {
    function GetOr(default: T): T {
      match this
      case Some(v) => v
      case None => default
    }
  }

  /** A computation that either yields a value or throws. */
  datatype Result<+T, +E> = Ok(value: T) | Err(error: E)
}
