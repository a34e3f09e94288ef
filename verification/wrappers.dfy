/** The optional value used wherever the source has a field that may be
    missing (`undefined`) or a parse that may yield `NaN`. */
module Wrappers {

  datatype Option<+T> = None | Some(value: T) {

    /** The encapsulated value, or `default` when there is none. */
    function GetOr(default: T): T {
      match this
      case Some(v) => v
      case None => default
    }
  }
}
