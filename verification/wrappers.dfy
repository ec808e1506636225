/** Optional values, standing in for Rust's `Option<T>`. */
module Wrappers {

  datatype Option<+T> = None | Some(value: T) {

    /** Rust's `unwrap_or`: the carried value, or `default` when there is none. */
    function GetOr(default: T): (r: T)
      ensures Some? ==> r == value
      ensures None? ==> r == default
    {
      match this
      case Some(v) => v
      case None => default
    }
  }

  /** How a computation that may panic ends: with a value, or with a panic
      that unwinds the request handling it. */
  datatype Completion<+T> = Done(value: T) | Panic
}
