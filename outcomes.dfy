/** Optional values and results with an error, as the rest of the model uses them. */
module Outcomes {

  datatype Option<+T> = None | Some(value: T)

  /** The value of a Python computation that either returns or raises. */
  datatype Result<+T, +E> = Ok(value: T) | Err(error: E)
}
