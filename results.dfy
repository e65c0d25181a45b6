/** Optional values and error-or-value results, shared by every module of the model.
    They stand for Python's `None` and for the exceptions the player raises. */
module Results {

  datatype Option<+T> = None | Some(value: T)

  datatype Result<+T, +E> = Success(value: T) | Failure(error: E)
}
