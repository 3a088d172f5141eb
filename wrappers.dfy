/** Option and Result, the shapes the model uses for JavaScript's `undefined`/`null`
    and for handlers that throw or refuse. */
module Wrappers {
  datatype Option<+T> = None | Some(value: T) {
    function GetOr(default: T): T {
      match this
      case Some(v) => v
      case None => default
    }
  }

  datatype Result<+R, +E> = Success(value: R) | Failure(error: E)
}
