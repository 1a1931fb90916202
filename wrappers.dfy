/** Optional values (nullable foreign keys and columns) and results of
    lookups that can fail (a view raising Http404). */
module Wrappers {

  datatype Option<+T> = None | Some(value: T)

  datatype Result<+T, +E> = Success(value: T) | Failure(error: E)
}
