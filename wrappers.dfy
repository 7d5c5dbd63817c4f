/** Small failure-compatible wrappers shared by every module of the model. */
module Wrappers {

  /** A value that may be absent; stands in for Python's `None`. */
  datatype Option<+T> = None | Some(value: T) {
    function GetOr(default: T): T {
      match this
      case Some(v) => v
      case None => default
    }
  }
}
