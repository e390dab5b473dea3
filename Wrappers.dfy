/** Optional values and results with an error, as used throughout the model. */
module Wrappers {

  /** `None` stands for JavaScript's `undefined`/`null` where the source uses an optional value. */
  datatype Option<+T> = None | Some(value: T)

  /** A computation that either yields a value or throws. */
  datatype Result<+T, +E> = Ok(value: T) | Err(error: E)
}
