/** Optional values and tagged success/error results, as the service returns them. */
module Wrappers {

  /** Python's `X | None`. */
  datatype Option<+T> = None | Some(value: T)

  /** The `result` package's `Ok(value)` / `Err(error)`. */
  datatype Result<+T, +E> = Ok(value: T) | Err(error: E)
}
