/** Option and Result, used for absent keys in a partial record and for the provider guard. */
module Wrappers {

  datatype Option<+T> = None | Some(value: T) {
    /** The value when present, otherwise `default` (the `...spread` rule for one key). */
    function GetOr(default: T): T {
      match this
      case Some(v) => v
      case None => default
    }
  }

  datatype Result<+R, +E> = Success(value: R) | Failure(error: E)
}
