/** Types shared by every module. */
module Wrappers {
  /** A nullable column or a missing reading. */
  datatype Option<+T> = None | Some(value: T) {
    function GetOr(default: T): T {
      match this
      case Some(v) => v
      case None => default
    }
  }

  /** How a commit ends for its caller: applied; not applied and reported failed; or applied while
      the connection drops and it is reported failed. */
  datatype Commit = Applied | Failed | Lost
}
