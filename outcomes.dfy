/** Option and Result, the two failure-carrying wrappers every other module uses. */
module Outcomes {

  /** A value that may be absent (Python's missing key, JavaScript's `undefined` slot). */
  datatype Option<+T> = None | Some(value: T)

  /** A computation that either produced a value or raised an error. */
  datatype Result<+T, +E> = Ok(value: T) | Err(error: E)
}
