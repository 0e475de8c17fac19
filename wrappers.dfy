/** Optional values and success-or-error results, used wherever the source
    returns None or raises an exception that its caller handles. */
module Wrappers {

  datatype Option<+T> = None | Some(value: T)

  datatype Result<+T, +E> = Ok(value: T) | Err(error: E)
}
