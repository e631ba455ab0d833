/** Option and Result, the failure-carrying values used throughout the model. */
module Wrappers {

  /** A value that may be absent: JavaScript's `undefined` / `null`. */
  datatype Option<+T> = None | Some(value: T) {
    function GetOr(default: T): T {
      match this
      case Some(v) => v
      case None => default
    }
  }

  /** Either a value or an error. */
  datatype Result<+R, +E> = Success(value: R) | Failure(error: E)

  /** `${s}` for an optional string: `undefined` when absent. */
  function ShowOptional(s: Option<string>): string {
    if s.Some? then s.value else "undefined"
  }
}
