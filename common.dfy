/** Optional values and the outcome of evaluating code that may throw. */
module Common {

  /** A JavaScript value that may be absent (`undefined`, `null` or a missing key). */
  datatype Option<+T> = None | Some(value: T) {
    /** The value, or `default` when absent. */
    function GetOr(default: T): T {
      match this
      case Some(v) => v
      case None => default
    }
  }

  /** The result of running code that either returns a value or throws a `TypeError`. */
  datatype Result<+T> = Ok(value: T) | TypeError
}
