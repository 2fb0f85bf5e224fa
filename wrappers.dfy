/** The optional-value datatype used throughout the model for JavaScript's
    `undefined` / `null` values. */
module Wrappers {
  datatype Option<+T> = None | Some(value: T) {
    function GetOr(default: T): T {
      match this
      case Some(v) => v
      case None => default
    }
  }
}
