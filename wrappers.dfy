/** Optional values: JavaScript's `null`/`undefined` on the model's side. */
module Wrappers {

  datatype Option<+T> = None | Some(value: T) {

    /** The value, or `default` for `None` (JavaScript's `x || default` on a possibly missing `x`). */
    function GetOr(default: T): T {
      match this
      case Some(v) => v
      case None => default
    }
  }
}
