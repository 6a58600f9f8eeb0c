/** Optional values and failure results, used for Python's `None` and for
    exceptions that escape a call. */
module Options {

  datatype Option<+T> = None | Some(value: T)

  datatype Result<+T, +E> = Success(value: T) | Failure(error: E)
}
