/** Option and Result, used for the optional settings of the logger and
    for construction, which either yields a configuration or fails. */
module Wrappers {

  datatype Option<+T> = None | Some(value: T)

  datatype Result<+R, +E> = Success(value: R) | Failure(error: E)
}
