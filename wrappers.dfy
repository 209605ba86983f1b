/** Optional values and results with an error payload, used for JavaScript's
    `null`/`undefined` and for form validation outcomes. */
module Wrappers {

  datatype Option<+T> = None | Some(value: T)

  datatype Result<+R, +E> = Success(value: R) | Failure(error: E)
}
