/** Optional values and Go's `(value, error)` returns, shared by every module. */
module Wrappers {

  /** A value that may be absent: a nil pointer, a NULL column, a missing map key. */
  datatype Option<+T> = None | Some(value: T)

  /** Go's `(T, error)` pair: either a value and a nil error, or an error whose message is kept. */
  datatype Result<+T> = Ok(value: T) | Err(error: string)
}
