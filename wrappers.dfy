/** Option and Result values used in place of `null` and of thrown errors. */
module Wrappers {

  /** `None` stands for JavaScript's `null` (or an absent value). */
  datatype Option<+T> = None | Some(value: T) {
    function GetOr(default: T): T {
      match this
      case Some(v) => v
      case None => default
    }
  }

  /** A computation that either produced a value or raised an error. */
  datatype Result<+R, +E> = Success(value: R) | Failure(error: E)
}
