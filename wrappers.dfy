/** Option and Result, the two failure-carrying datatypes the model uses in place of
    Python's `None` and of the `ValueError` raised while a session is set up. */
module Wrappers {

  datatype Option<+T> = None | Some(value: T)

  datatype Result<+R, +E> = Success(value: R) | Failure(error: E)
}
