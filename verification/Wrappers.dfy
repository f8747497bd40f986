// The two result shapes the models share: an optional column, and a service
// call that either commits a new value or aborts with an error.
module Wrappers {
  datatype Option<+T> = None | Some(value: T)

  datatype Result<+T, +E> = Ok(value: T) | Err(error: E)
}
