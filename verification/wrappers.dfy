/** Optional values: the model's stand-in for JavaScript's `undefined`
    and `null` (absent object properties, failed decodes, a missing chat
    session). */
module Wrappers {

  datatype Option<+T> = None | Some(value: T) {

    /** The wrapped value, or `fallback` when nothing is there. */
    function GetOr(fallback: T): T {
      if Some? then value else fallback
    }
  }
}
