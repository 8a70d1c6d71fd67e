/** Optional values: JavaScript's `null` / `undefined` next to a present value. */
module Wrappers {

  datatype Option<+T> = None | Some(value: T) {

    /** The present value, or `default` when absent (JavaScript's `x ?? default`). */
    function GetOr(default: T): T {
      match this
      case Some(v) => v
      case None => default
    }
  }

  /** The `{ data, error }` pair of a store call: a value, or an error and no value. */
  datatype Result<+T, +E> = Ok(value: T) | Err(error: E)
}
