/** Optional values and results, used for the fields a scanner may leave out
    and for calls that either return a value or throw an error. */
module Wrappers {

  datatype Option<+T> = None | Some(value: T)

  datatype Result<+T, +E> = Ok(value: T) | Err(error: E)
}
