/** Optional values and failure-carrying results, used wherever the source has
    `null`/`undefined`, a caught exception or an HTTP error response. */
module Wrappers {
  datatype Option<T> = None | Some(value: T)

  datatype Result<T, E> = Ok(value: T) | Err(error: E)
}
