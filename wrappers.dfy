/** Small value wrappers shared by the other modules. */
module Wrappers {

  /** Swift's `Optional`: `nil` or a wrapped value. */
  datatype Option<+T> = None | Some(value: T) {

    /** `self ?? default`. */
    function GetOr(default: T): T
    {
      match this
      case Some(v) => v
      case None => default
    }
  }

  /** How an operation ended: it returned normally, or the process stopped
      (a `fatalError` call or a runtime trap such as an invalid closed range). */
  datatype Outcome = Done | Aborted
}
