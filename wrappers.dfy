/** Optional values (Go's nil pointers and nil slices) and results (Go's `(value, error)` pairs). */
module Wrappers {

  datatype Option<+T> = None | Some(value: T)

  datatype Result<+T, +E> = Ok(value: T) | Err(error: E)
}
