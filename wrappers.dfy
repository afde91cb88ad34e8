/** Optional values and results with an error path, for JavaScript's
    `undefined` and for calls that throw. */
module Wrappers {

  datatype Option<+T> = None | Some(value: T)

  datatype Result<+T, +E> = Ok(value: T) | Err(error: E)
}
