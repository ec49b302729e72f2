/** Optional values and results shared by the other modules. */
module Wrappers {

  /** A value that may be absent: Go's nil pointer or nil request. */
  datatype Option<+T> = None | Some(value: T)

  /** A value or an error, as a Go function returning (T, error). */
  datatype Result<+T, +E> = Ok(value: T) | Err(error: E)
}
