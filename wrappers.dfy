/** Optional values and results with a typed error, used for every lookup
    that the program aborts on when it comes back empty. */
module Wrappers {

  datatype Option<+T> = None | Some(value: T)

  datatype Result<+T, +E> = Ok(value: T) | Err(error: E)
}
