/** Option and Result, used for Python's `None` results and raised exceptions. */
module Wrappers {

  datatype Option<+T> = None | Some(value: T) {

    /** `v if v is not None else default`. */
    function GetOr(default: T): T
    {
      match this
      case Some(v) => v
      case None => default
    }
  }

  datatype Result<+R, +E> = Success(value: R) | Failure(error: E)
}
