/** The optional value used throughout the model for a C NULL, a Python exception
    that a handler catches, or a file that cannot be read. */
module Wrappers {

  datatype Option<+T> = None | Some(value: T) {

    /** The wrapped value, or `default` when there is none. */
    function GetOr(default: T): T {
      match this
      case Some(v) => v
      case None => default
    }
  }
}
