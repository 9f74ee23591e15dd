/** Optional values and results with an error message, used for Python's
    None and for exceptions that the scraper lets propagate. */
module Wrappers {

  datatype Option<+T> = None | Some(value: T)

  datatype Result<+R, +E> = Success(value: R) | Failure(error: E)
}
