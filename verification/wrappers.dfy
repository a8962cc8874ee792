/** Optional values and results, standing in for Go's nil pointers and (value, error) pairs. */
module Wrappers {

  /** A nullable value: None plays the part of Go's nil. */
  datatype Option<+T> = None | Some(value: T)

  /** A value or an error, for Go functions returning (T, error). */
  datatype Result<+T, +E> = Ok(value: T) | Err(error: E)
}
