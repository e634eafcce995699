/** Option and Result: the optional values (JavaScript `null`/`undefined`, pandas NaN)
    and the error returns (thrown exceptions, HTTP errors) used throughout the model. */
module Wrappers {

  datatype Option<+T> = None | Some(value: T) {
    /** The value, or `default` when absent. */
    function GetOr(default: T): T {
      match this
      case Some(v) => v
      case None => default
    }
  }

  datatype Result<+R, +E> = Ok(value: R) | Err(error: E)
}
