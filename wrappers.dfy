/** Optional values: JavaScript's `undefined` (and `null` where the two are treated alike). */
module Wrappers {

  datatype Option<+T> = None | Some(value: T) {

    /** The `??` operator: the value, or `default` when undefined. */
    function GetOr(default: T): T {
      match this
      case Some(v) => v
      case None => default
    }
  }
}
