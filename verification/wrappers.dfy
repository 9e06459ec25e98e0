/** Optional values, standing in for TypeScript's `T | undefined` and for the
    "not found" answers of `findIndex`/`indexOf`. */
module Wrappers {

  datatype Option<+T> = None | Some(value: T) {

    /** The value, or `default` when there is none. */
    function GetOr(default: T): T {
      match this
      case Some(v) => v
      case None => default
    }
  }
}
