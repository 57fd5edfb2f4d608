/** Optional values and results that may fail, used across the model. */
module Wrappers {

  /** An optional value: `None` stands for a missing, null or undefined value. */
  datatype Option<+T> = None | Some(value: T)

  /** The outcome of an operation that may fail with an error instead of a value. */
  datatype Result<+T, +E> = Ok(value: T) | Err(error: E)
}
