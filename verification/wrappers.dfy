/** Optional values and results shared by the other modules.
    - Option<T>: a value that may be absent (a Python attribute that may not
      exist, an argument that may be None).
    - Result<T, E>: a value, or the exception raised in its place.
 */
module Wrappers {

  datatype Option<+T> = None | Some(value: T)

  datatype Result<+T, +E> = Success(value: T) | Failure(error: E)
}
