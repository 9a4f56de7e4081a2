/** Failure-carrying results used in place of the source's exceptions. */
module Wrappers {

  datatype Option<+T> = None | Some(value: T) {
    function GetOr(default: T): T {
      match this
      case Some(v) => v
      case None => default
    }
  }

  /** `Err` stands for a raised `ValueError` (or other exception) of the source. */
  datatype Result<+R, +E> = Ok(value: R) | Err(error: E)
}
