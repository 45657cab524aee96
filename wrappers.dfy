/** Optional values and error returns, as used across the model.
    A Go `*T` that may be nil is an `Option<T>`; a Go `(T, error)` pair is a `Result<T>`. */
module Wrappers {

  datatype Option<T> = None | Some(value: T)
  {
    function GetOr(default: T): (r: T)
      ensures this.Some? ==> r == value
      ensures this.None? ==> r == default
    {
      match this
      case None => default
      case Some(v) => v
    }
  }

  /** The `error` of a Go call is kept as the fixed text of its message. */
  datatype Result<T> = Ok(value: T) | Err(error: string)
  {
    predicate IsFailure() { Err? }
  }
}
