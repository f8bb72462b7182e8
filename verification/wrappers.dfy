/** The Option datatype used for every "maybe absent" value in the model:
    an optional regex capture, an optional form field, an unset setting. */
module Wrappers {

  datatype Option<+T> = None | Some(value: T) {

    /** Returns the value in Some, or `default` for None. */
    function GetOr(default: T): T {
      match this
      case Some(v) => v
      case None => default
    }
  }
}
