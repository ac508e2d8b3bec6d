/** Option and Result: the shapes of Rust's `Option<T>` and `Result<T, Error>`
    that the cluster's operations return. */
module Wrappers {

  datatype Option<+T> = None | Some(value: T)

  /** `Ok` carries the value, `Err` the error that a `?` would propagate. */
  datatype Result<+T, +E> = Ok(value: T) | Err(error: E)
}
