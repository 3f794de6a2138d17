/** Optional values and success/failure results shared by the other modules. */
module Wrappers {

  /** A value that may be absent: Python's `None` or a present value. */
  datatype Option<+T> = None | Some(value: T) {

    /** The value if present, else the given default (Python's `x or default` for
        values that are never falsy). */
    function UnwrapOr(default: T): T {
      match this
      case Some(v) => v
      case None => default
    }
  }

  /** The outcome of an operation that can be refused with a typed error. */
  datatype Result<+R, +E> = Success(value: R) | Failure(error: E)
}
