/** Optional values and outcomes that may end in a Go runtime panic. */
module Wrappers {
  /** A Go nil pointer, nil map or absent result, or a value. */
  datatype Option<T> = None | Some(value: T)

  /** A result, or a runtime panic (a failed type assertion or an index out of range). */
  datatype Outcome<T> = Ok(value: T) | Panic
}
