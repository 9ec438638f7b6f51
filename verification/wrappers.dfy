/** Values that may be missing and computations that may raise. */
module Wrappers {

  /** A JSON key that may be absent, or a search that may yield nothing. */
  datatype Option<+T> = None | Some(value: T) {

    /** Python's `d.get(key, fallback)`: the value if present, else the fallback. */
    function GetOr(fallback: T): T {
      if Some? then value else fallback
    }
  }

  /** A computation that returns a value or raises with an error. */
  datatype Result<+R, +E> = Success(value: R) | Failure(error: E)
}
