/** Optional values: `undefined` (or an absent key) is `None`. */
module Wrappers {

  datatype Option<+T> = None | Some(value: T) {

    /** `x ?? d`, and `x || d` where every present value is truthy. */
    function GetOr(default: T): T {
      match this
      case Some(v) => v
      case None => default
    }
  }
}
