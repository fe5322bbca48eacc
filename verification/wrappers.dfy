/** The optional-value datatype used throughout the model for JavaScript's
    `null` / `undefined` and for partial decoders. */
module Wrappers {

  datatype Option<+T> = None | Some(value: T) {

    /** The value, with `default` standing in when it is absent. */
    function GetOr(default: T): T {
      match this
      case Some(v) => v
      case None => default
    }
  }
}
