/** Option and Outcome values shared by both client generations. */
module Wrappers {

  /** A value that may be absent; `None` stands for a Java `null` reference. */
  datatype Option<+T> = None | Some(value: T) {
    function GetOr(default: T): T {
      match this
      case Some(v) => v
      case None => default
    }
  }

  /** The result of a Java call: either it returns a value or it throws. */
  datatype Outcome<+T, +E> = Returned(value: T) | Threw(error: E)
}
