/** Optional values (JavaScript's `undefined`/`null` versus a present value) and results. */
module Wrappers {

  datatype Option<+T> = None | Some(value: T)

  datatype Result<+R, +E> = Success(value: R) | Failure(error: E)
}
