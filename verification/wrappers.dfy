/** Option and Result values used for absent configuration fields and for
    the one way the stack constructor can fail. */
module Wrappers {

  datatype Option<+T> = None | Some(value: T)

  datatype Result<+T, +E> = Success(value: T) | Failure(error: E)

}
