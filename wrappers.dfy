/** Optional values (SQL NULL, a JavaScript `undefined` property) and failure-carrying results. */
module Wrappers {

  datatype Option<+T> = None | Some(value: T)

  datatype Result<+T, +E> = Success(value: T) | Failure(error: E)
}
