/** Optional values and results with an error, used for the source's nullable
    values (`T | null`, `field?: T`) and for thrown exceptions. */
module Wrappers {

  datatype Option<+T> = None | Some(value: T)

  datatype Result<+T, +E> = Ok(value: T) | Err(error: E)
}
