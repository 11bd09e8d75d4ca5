/** Optional values (the source's nullable references) and results (the source's exceptions). */
module Wrappers {

  datatype Option<+T> = None | Some(value: T)

  /** Success, or the error the source would throw. Usable with `:-`. */
  datatype Result<+T, +E> = Success(value: T) | Failure(error: E) {
    predicate IsFailure() {
      Failure?
    }

    function PropagateFailure<U>(): Result<U, E>
      requires Failure?
    {
      Failure(error)
    }

    function Extract(): T
      requires Success?
    {
      value
    }
  }
}
