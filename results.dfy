/** Optional values and success-or-error results, used for the source's
    `null`/`undefined` returns and for the errors it throws. */
module Results {

  datatype Option<+T> = None | Some(value: T)

  datatype Result<+T, +E> = Success(value: T) | Failure(error: E)
}
