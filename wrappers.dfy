/** Option and Result, used to make every failing dictionary lookup of the
    dashboard an explicit value instead of a raised exception. */
module Wrappers {

  datatype Option<+T> = None | Some(value: T)

  datatype Result<+T, +E> = Success(value: T) | Failure(error: E)
}
