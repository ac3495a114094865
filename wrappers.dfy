/** Option and Result, for Go's "value, ok" and "value, error" returns. */
module Wrappers {

  datatype Option<+T> = None | Some(value: T)

  datatype Result<+T, +E> = Ok(value: T) | Err(error: E)

  /** The value of a successful result, or `fallback` when it failed. */
  function OkOr<T, E>(r: Result<T, E>, fallback: T): T
  {
    match r
    case Ok(v) => v
    case Err(_) => fallback
  }
}
