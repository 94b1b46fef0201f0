/** Optional values: JavaScript's `null`, `undefined`, `-1` from `findIndex` and `NaN` from `parseInt`. */
module Wrappers {

  datatype Option<+T> = None | Some(value: T) {

    /** The value, or `default` for None: JavaScript's `x ?? default` / `x || default` on objects. */
    function GetOr(default: T): T {
      match this
      case Some(v) => v
      case None => default
    }
  }
}
