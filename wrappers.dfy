/** Option type shared by every module of the model. */
module Wrappers {

  /** A value that may be absent; stands for JavaScript's null/undefined. */
  datatype Option<+T> = None | Some(value: T) {

    /** The held value, or `default` when absent. */
    function GetOr(default: T): T {
      match this
      case Some(v) => v
      case None => default
    }
  }
}
