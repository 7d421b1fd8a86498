/** Option and Result, the shapes the pages use for "maybe absent" values and for
    operations that either succeed or show an error message. */
module Wrappers {
  datatype Option<+T> = None | Some(value: T)

  datatype Result<+T, +E> = Success(value: T) | Failure(error: E)
}
