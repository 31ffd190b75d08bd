/** Option and Result, used for the optional fields of a panel and for the
    outcome of every asynchronous action (a rejected promise is a Failure). */
module Wrappers {

  datatype Option<+T> = None | Some(value: T)

  datatype Result<+R, +E> = Success(value: R) | Failure(error: E)
}
