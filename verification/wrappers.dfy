/** Optional values and results with an error path, used wherever a screen
    either produces a value or reports an error message to the user. */
module Wrappers {

  datatype Option<+T> = None | Some(value: T)

  datatype Result<+R, +E> = Ok(value: R) | Err(error: E)
}
