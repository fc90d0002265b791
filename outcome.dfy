/** Optional values and fallible results, used where the backend returns `null` or throws. */
module Outcome {

  datatype Option<+T> = None | Some(value: T)

  /** The outcome of a call that may throw: `Err` carries the thrown error's message. */
  datatype Result<+T> = Ok(value: T) | Err(message: string)

  /** `x ?? fallback` for an optional value. */
  function OrElse<T>(o: Option<T>, fallback: T): T {
    match o
    case Some(v) => v
    case None => fallback
  }
}
