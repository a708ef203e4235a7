/** Option, the stand-in for TypeScript's `undefined`/`null` results. */
module Wrappers {
  datatype Option<+T> = None | Some(value: T) {
    function GetOr(default: T): T {
      match this
      case Some(v) => v
      case None => default
    }
  }
}
