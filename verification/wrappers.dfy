/** Optional values and success/failure results used across the model: an optional value
    (a TypeScript `T | undefined` or `T | null`) and a success/failure result
    (a resolved or rejected promise). */
module Wrappers {

  datatype Option<+T> = None | Some(value: T)

  datatype Result<+R, +E> = Success(value: R) | Failure(error: E)
}
