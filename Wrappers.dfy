/** Failure-compatible wrappers shared by the rest of the model: `Option` stands
    for JavaScript's `undefined`/`null` results and `Result` for a call that throws. */
module Wrappers {

  datatype Option<+T> = None | Some(value: T) {
    function GetOr(default: T): T {
      match this
      case Some(v) => v
      case None => default
    }
  }

  datatype Result<+R, +E> = Success(value: R) | Failure(error: E)
}
