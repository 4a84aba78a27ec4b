/** Option and Result, the two shapes the model uses for values that may be
    missing (an `undefined` form field or sub-record) and for operations that
    can throw (an out-of-range step index).
 */
module Wrappers {

  /** `None` stands for JavaScript's `undefined`. */
  datatype Option<+T> = None | Some(value: T) {

    /** Returns the value held in Some, or `default` when None. */
    function GetOr(default: T): T {
      match this
      case Some(v) => v
      case None => default
    }
  }

  /** `Failure` stands for a thrown `Error` carrying its message. */
  datatype Result<+R, +E> = Success(value: R) | Failure(error: E)
}
