/** Small value wrappers shared by the workspace modules. */
module Wrappers {

  /** A value that may be absent: `null`/`undefined` in the source. */
  datatype Option<+T> = None | Some(value: T) {

    /** The value, or `default` when absent. */
    function GetOr(default: T): T {
      match this
      case Some(v) => v
      case None => default
    }
  }

  /** How an awaited promise settles: with a value, or by rejecting. */
  datatype Settled<+T> = Resolved(value: T) | Rejected
}
