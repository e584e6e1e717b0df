/** Shared value types: a possibly absent value, and a validation outcome. */
module Wrappers {

  /** Python's `None` (absent) or a present value. */
  datatype Option<+T> = None | Some(value: T) {

    /** Python's `x if x is not None else fallback`. */
    function ValueOr(fallback: T): T {
      if Some? then value else fallback
    }
  }

  /** A validated value, or the errors that stopped validation. */
  datatype Result<+R, +E> = Success(value: R) | Failure(error: E)
}
