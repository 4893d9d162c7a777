/** Option and Result, used for the values the source leaves out (Python `None`)
    and for the batch that cannot start (an empty list of numeric columns). */
module Wrappers {

  datatype Option<+T> = None | Some(value: T)

  datatype Result<+R, +E> = Success(value: R) | Failure(error: E)
}
