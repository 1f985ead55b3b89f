/** Optional values and success-or-failure results used across the model. */
module Wrappers {

  /** A value that may be missing: a profile field the source adds only when a claim is present. */
  datatype Option<+T> = None | Some(value: T)

  /** The outcome of a step that either produces a value or fails with an error. */
  datatype Result<+T, +E> = Ok(value: T) | Err(error: E)
}
