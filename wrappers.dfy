/** Option and Result, the failure-carrying values used throughout the model:
    `None` stands for JavaScript's `undefined`/`null` where the source tests a
    value with `??` or optional chaining, `Failure` for a thrown `Error`. */
module Wrappers {

  datatype Option<+T> = None | Some(value: T) {
    function GetOr(default: T): T {
      match this
      case Some(v) => v
      case None => default
    }
  }

  datatype Result<+R, +E> = Success(value: R) | Failure(error: E)
}
