/** Rust's `Option` and `Result`, the two shapes every value in the discovery loop travels in. */
module Wrappers {

  /** A possibly absent value; the remote API leaves any field of its responses unset this way. */
  datatype Option<+T> = None | Some(value: T) {

    /** The value, or `default` when absent (Rust's `unwrap_or_else(Vec::new)` with an empty default). */
    function GetOr(default: T): T {
      match this
      case Some(v) => v
      case None => default
    }
  }

  /** The outcome of a step that can abort the run: a value, or the reason the run stops. */
  datatype Result<+R, +E> = Success(value: R) | Failure(error: E)
}
