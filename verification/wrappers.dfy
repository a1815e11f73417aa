/** Option and Result values used across the model. `None` stands for JavaScript's
    `undefined`/`null`; `Failure` for an early return that reports an error. */
module Wrappers {

  datatype Option<+T> = None | Some(value: T) {
    function GetOr(default: T): T {
      match this
      case Some(v) => v
      case None => default
    }
  }

  datatype Result<+R, +E> = Success(value: R) | Failure(error: E)
}
