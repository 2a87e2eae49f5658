/** The optional-value type used for JavaScript's `undefined` (a missing
    field, a `find` that matches nothing) and for `null` UI state. */
module Wrappers {

  datatype Option<+T> = None | Some(value: T) {

    /** The value, or a default when there is none (JavaScript's `x ?? d`). */
    function GetOr(default: T): T {
      match this
      case Some(v) => v
      case None => default
    }
  }
}
