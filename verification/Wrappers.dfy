/** Stock result types. */
module Wrappers {
  datatype Option<+T> = None | Some(value: T)
  datatype Result<+R, +E> = Ok(value: R) | Err(error: E)
}
