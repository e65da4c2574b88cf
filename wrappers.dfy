/** Optional values and results with an error branch, used wherever the
    controller either has no value (Python's `None`) or raises. */
module Wrappers {

  datatype Option<+T> = None | Some(value: T) {
    /** The value, or `default` when there is none (Python's `d.get(k, default)` idiom). */
    function GetOr(default: T): T {
      match this
      case Some(v) => v
      case None => default
    }
  }

  /** `Err` stands for an exception the controller lets escape to its caller. */
  datatype Result<+T, +E> = Ok(value: T) | Err(error: E)
}
