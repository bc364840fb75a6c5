/** The optional value used wherever the application reads something that may be absent
    (a `null` column, an `undefined` property, a missing file). */
module Wrappers {

  datatype Option<+T> = None | Some(value: T) {

    /** The value, or `default` when absent. */
    function GetOr(default: T): T {
      match this
      case Some(v) => v
      case None => default
    }
  }
}
