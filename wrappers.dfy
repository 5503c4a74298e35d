/** Optional values: `None` stands for JavaScript's `null` (or a missing value). */
module Wrappers {

  datatype Option<+T> = None | Some(value: T) {

    /** The value inside `Some`, or a default for `None`. */
    function GetOr(default: T): T {
      match this
      case Some(v) => v
      case None => default
    }
  }
}
