/** Optional values: `None` stands for JavaScript's `undefined`/`null`, or for a
    call that threw. */
module Wrappers {

  datatype Option<+T> = None | Some(value: T) {

    /** The value if present, else `default` (the `x || default` idiom when x is
        never falsy otherwise). */
    function GetOr(default: T): T {
      match this
      case Some(v) => v
      case None => default
    }
  }
}
