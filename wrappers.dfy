/** The Some/None datatype used for parsed numbers, the stored partial input
    and SQL aggregates that may be NULL. */
module Wrappers {

  datatype Option<+T> = None | Some(value: T) {

    /** The value in Some, or `default` for None (Python's `x or default`
        for a value that is NULL). */
    function GetOr(default: T): T {
      match this
      case Some(v) => v
      case None => default
    }
  }
}
