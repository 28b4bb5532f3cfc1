/** Optional values and the outcome of an action that may fail with a message. */
module Wrappers {

  /** A value that may be missing (JavaScript's `null` / `undefined`). */
  datatype Option<+T> = None | Some(value: T)

  /** A resolved promise carrying a value, or a rejected one carrying an error message. */
  datatype Result<+T> = Ok(value: T) | Err(message: string)
}
