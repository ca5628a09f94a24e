/** Optional values and success/failure results, as used throughout the model.
    `None` stands for JavaScript's `undefined`/`null`; `Err` for a thrown error
    or an error branch of a result object. */
module Wrappers {

  datatype Option<+T> = None | Some(value: T) {

    /** The value, or `default` when absent (JavaScript's `x ?? default`). */
    function GetOr(default: T): T {
      match this
      case Some(v) => v
      case None => default
    }

    /** `a ?? b` on two optional values. */
    function OrElse(other: Option<T>): Option<T> {
      if Some? then this else other
    }
  }

  datatype Result<+T, +E> = Ok(value: T) | Err(error: E)
}
