/** Option and Result values shared by the modules of the model. */
module Wrappers {
  datatype Option<+T> = None | Some(value: T) {
    /** Rust's `unwrap_or`: the value if present, the default otherwise. */
    function UnwrapOr(default: T): T
    {
      match this
      case Some(v) => v
      case None => default
    }
  }

  datatype Result<+R, +E> = Success(value: R) | Failure(error: E)
}
