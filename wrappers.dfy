/** Optional values and results with an error, used for Python's `None`
    and for exceptions that the producer raises or lets escape. */
module Wrappers {

  datatype Option<+T> = None | Some(value: T)

  datatype Result<+R, +E> = Success(value: R) | Failure(error: E)
}
