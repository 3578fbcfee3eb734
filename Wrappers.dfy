/** A value that may be absent: JavaScript's `undefined`/`null` (and `NaN` from a
    failed parse) in the dashboard script. */
module Wrappers {

  datatype Option<+T> = None | Some(value: T) {

    /** The value, or `default` when absent. */
    function GetOr(default: T): T {
      match this
      case Some(v) => v
      case None => default
    }
  }
}
