/** The optional value used wherever the program may produce nothing (no snapshot, no regex match)
    or where a call may raise instead of returning. */
module Wrappers {

  datatype Option<+T> = None | Some(value: T) {

    /** The value held, or `default` when there is none. */
    function GetOr(default: T): T {
      match this
      case Some(v) => v
      case None => default
    }
  }
}
