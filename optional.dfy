/** Option and Result, the shapes Go's (value, ok) and (value, err) pairs take here. */
module Optional {

  datatype Option<+T> = None | Some(value: T)

  datatype Result<+T, +E> = Success(value: T) | Failure(error: E)
}
