/** The failure-compatible Option type used across the model. */
module Wrappers {

  /** `None` stands for the cases where the program raises instead of producing a value. */
  datatype Option<+T> = None | Some(value: T) {

    /** The value, or `default` when there is none. */
    function GetOr(default: T): T {
      match this
      case Some(v) => v
      case None => default
    }
  }
}
