/** Optional values and error-carrying results, used wherever the Python code
    reads a possibly missing key (`dict.get`) or fails with an exception. */
module Wrappers {

  datatype Option<+T> = None | Some(value: T)

  datatype Result<+R, +E> = Ok(value: R) | Err(error: E)
}
