/** Optional values, standing for Python's None, TypeScript's undefined/null and
    failed probes throughout the model. */
module Wrappers {

  datatype Option<+T> = None | Some(value: T) {

    /** The value, or the given default (the `x || d` and `x ?? d` idiom of the source). */
    function GetOr(default: T): T {
      match this
      case Some(v) => v
      case None => default
    }
  }
}
