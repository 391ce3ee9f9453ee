/** Optional values and success-or-failure results shared by every page model. */
module Wrappers {

  /** A value that may be absent: JavaScript's `null` / `undefined`. */
  datatype Option<T> = None | Some(value: T)

  /** The outcome of a call that either resolves with a value or rejects with an error. */
  datatype Result<T, E> = Ok(value: T) | Err(error: E)
}
