/** Optional values and success/failure results shared by the other modules. */
module Outcomes {

  /** A value that may be absent (JavaScript `undefined`, or a property a draft does not own). */
  datatype Option<T> = None | Some(value: T)

  /** The outcome of a backend call: a value, or the error it raised. */
  datatype Result<T, E> = Ok(value: T) | Err(error: E)
}
