/** Option and Result, used wherever the source returns null or throws. */
module Wrappers {

  /** `None` stands for a C# `null` reference. */
  datatype Option<+T> = None | Some(value: T) {
    function GetOr(default: T): T {
      match this
      case Some(v) => v
      case None => default
    }
  }

  /** `Failure` stands for an exception the source throws. */
  datatype Result<+R, +E> = Success(value: R) | Failure(error: E)
}
