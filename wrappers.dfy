/** Option and Result: the two failure-carrying wrappers the rest of the model uses. */
module Wrappers {

  /** `None` stands for JavaScript's `null`/`undefined` where a value may be missing. */
  datatype Option<+T> = None | Some(value: T) {
    function GetOr(default: T): T {
      match this
      case Some(v) => v
      case None => default
    }
  }

  /** A promise that either resolves (`Success`) or rejects (`Failure`). */
  datatype Result<+R, +E> = Success(value: R) | Failure(error: E)
}
