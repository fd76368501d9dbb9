/** Option and Result, the two failure-carrying wrappers the model uses in
    place of Kotlin's nullable types, Python's None and thrown exceptions. */
module Wrappers {

  datatype Option<+T> = None | Some(value: T) {
    /** Kotlin's elvis operator `this ?: default`. */
    function GetOr(default: T): T {
      match this
      case Some(v) => v
      case None => default
    }
  }

  datatype Result<+R, +E> = Success(value: R) | Failure(error: E)
}
