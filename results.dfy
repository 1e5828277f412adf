/** Option and Result, used for the places where the Ruby code returns nil or raises. */
module Results {

  datatype Option<+T> = None | Some(value: T)

  /** `Failure(e)` stands for an exception of kind `e` leaving the operation. */
  datatype Result<+T, +E> = Success(value: T) | Failure(error: E)
}
