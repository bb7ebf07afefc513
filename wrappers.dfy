/** Option and Result values standing in for JavaScript's `undefined` and for thrown errors. */
module Wrappers {

  /** `None` is a field or query parameter that is absent (`undefined`). */
  datatype Option<+T> = None | Some(value: T) {
    function GetOr(default: T): T {
      match this
      case Some(v) => v
      case None => default
    }
  }

  /** `Err` carries what the source throws or reports instead of a value. */
  datatype Result<+R, +E> = Ok(value: R) | Err(error: E)
}
