/** Option and Result values shared by the server-side and client-side modules. */
module Wrappers {

  /** A value that may be absent (PHP/JavaScript `null`). */
  datatype Option<+T> = None | Some(value: T) {
    /** The held value, or `default` when absent. */
    function GetOr(default: T): T {
      if Some? then value else default
    }
  }

  /** The settled state of a call that either returns a value or throws with a message. */
  datatype Result<+T> = Success(value: T) | Failure(error: string)
}
