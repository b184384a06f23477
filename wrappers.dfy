/** Option and Result, the shapes Rust's `Option<T>` and fallible constructors take here. */
module Wrappers {

  datatype Option<+T> = None | Some(value: T)

  datatype Result<+T, +E> = Success(value: T) | Failure(error: E)
}
