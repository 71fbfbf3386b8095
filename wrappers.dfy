/** Optional values and results: the model's stand-ins for JavaScript's
    `null`/`undefined` and for routes that end in an early error return. */
module Wrappers {

  datatype Option<+T> = None | Some(value: T) {
    function GetOr(default: T): T {
      match this
      case Some(v) => v
      case None => default
    }
  }

  datatype Result<+T, +E> = Ok(value: T) | Err(error: E)
}
