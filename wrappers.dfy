/** Option and the outcome of a call that may raise, shared by every module. */
module Wrappers {

  datatype Option<+T> = None | Some(value: T) {
    function GetOr(default: T): T {
      match this
      case Some(v) => v
      case None => default
    }
  }

  /** The result of a Python call that either returns a value or lets an
      exception propagate to its caller. */
  datatype Fallible<+T> = Threw | Returned(value: T)
}
