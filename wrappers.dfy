/** Optional values and success-or-error results, the Dafny counterparts of
    Swift's `T?` and of a function that `throws`. */
module Wrappers {

  datatype Option<+T> = None | Some(value: T)

  datatype Result<+R, +E> = Success(value: R) | Failure(error: E)
}
