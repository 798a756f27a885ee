/** Option and Result, used for JavaScript's `undefined` and for thrown errors. */
module Wrappers {

  /** `None` stands for an absent value (`undefined` in the source). */
  datatype Option<+T> = None | Some(value: T) {
    function GetOr(default: T): T {
      match this
      case Some(v) => v
      case None => default
    }
  }

  /** `Failure` carries the message of the error the source throws. */
  datatype Result<+R, +E> = Success(value: R) | Failure(error: E)
}
