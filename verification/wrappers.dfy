/** The optional-value type used throughout the model for JavaScript's
    `null` / `undefined` / "key not present". */
module Wrappers {
  datatype Option<+T> = None | Some(value: T) {
    function GetOr(default: T): T {
      match this
      case Some(v) => v
      case None => default
    }
  }
}
