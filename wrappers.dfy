/** Optional values and error-carrying results, used wherever the source returns
    `null`, throws, or answers with an error status. */
module Wrappers {

  datatype Option<+T> = None | Some(value: T)

  datatype Result<+T, +E> = Ok(value: T) | Err(error: E)
}
