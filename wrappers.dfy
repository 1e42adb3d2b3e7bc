/** The conventional optional value, used here for fields of a cache record
    that may be absent and for JavaScript values that may be `undefined`
    or `NaN`. */
module Wrappers {

  datatype Option<+T> = None | Some(value: T) {

    /** The encapsulated value, or `default` when there is none. */
    function GetOr(default: T): T {
      match this
      case Some(v) => v
      case None => default
    }
  }
}
