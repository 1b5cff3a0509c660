/** Option value for lookups that may reject a coordinate. */
module Wrappers {

  datatype Option<T> = None | Some(value: T)
  {
    /** The carried value, or `default` when there is none (Rust's `unwrap_or`). */
    function GetOr(default: T): T
    {
      match this
      case None => default
      case Some(v) => v
    }
  }
}
