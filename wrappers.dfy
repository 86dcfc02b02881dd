/** Optional values and success-or-error results, used where the program
    works with `None`, falsy values or an early `return` on error. */
module Wrappers {

  datatype Option<+T> = None | Some(value: T)

  datatype Result<+R, +E> = Success(value: R) | Failure(error: E)
}
