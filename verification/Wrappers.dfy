/** Option and Result values, used in place of null and of raised errors, and the elements of a sequence. */
module Wrappers {

  datatype Option<+T> = None | Some(value: T)

  datatype Result<+T, +E> = Success(value: T) | Failure(error: E) {
    predicate IsFailure() {
      Failure?
    }

    function PropagateFailure<U>(): Result<U, E>
      requires Failure?
    {
      Failure(error)
    }

    function Extract(): T
      requires Success?
    {
      value
    }
  }

  function Elements<T(==)>(s: seq<T>): set<T> {
    set x | x in s
  }
}
