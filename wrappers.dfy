/** Option and Result values used where the Rust code returns `Option<_>` or `Result<_, _>`. */
module Wrappers {

  datatype Option<+T> = None | Some(value: T) {
    /** `unwrap_or(default)`. */
    function GetOr(default: T): T {
      match this
      case Some(v) => v
      case None => default
    }
  }

  datatype Result<+T, +E> = Ok(value: T) | Err(error: E) {
    /** `unwrap_or(default)`. */
    function GetOr(default: T): T {
      match this
      case Ok(v) => v
      case Err(_) => default
    }
  }
}
