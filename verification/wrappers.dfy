/** Optional values and results with an error, used for lookups that may miss
    (`find` returning `undefined`) and for a submit that may be rejected. */
module Wrappers {

  datatype Option<+T> = None | Some(value: T)

  datatype Result<+T, +E> = Ok(value: T) | Err(error: E)
}
