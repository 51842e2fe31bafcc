/** Optional values and results with an error, used wherever the source returns
    `None` or raises an exception that a caller catches. */
module Wrappers {

  datatype Option<+T> = None | Some(value: T)

  datatype Result<+R, +E> = Ok(value: R) | Err(error: E)
}
