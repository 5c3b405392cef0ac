/** Optional values (the source's nullable `T?`) and results with an error value
    (the source's exceptions at the registry boundary). */
module Wrappers {

  datatype Option<+T> = None | Some(value: T)

  datatype Result<+R, +E> = Success(value: R) | Failure(error: E)
}
