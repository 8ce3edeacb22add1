/** The conventional optional-value datatype, standing for a JavaScript value
    that may be `undefined`. */
module Wrappers {

  datatype Option<+T> = None | Some(value: T) {

    /** The encapsulated value, or `default` when there is none: JavaScript's
        `x ?? default` for an `x` that is either an array or `undefined`. */
    function GetOr(default: T): T {
      match this
      case Some(v) => v
      case None => default
    }
  }
}
