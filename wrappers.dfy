/** Option and Result, both usable with `:-`. */
module Wrappers {

  datatype Option<+T> = None | Some(value: T) {
    predicate IsFailure() { None? }

    function PropagateFailure<U>(): Option<U>
      requires None?
    {
      None
    }

    function Extract(): T
      requires Some?
    {
      value
    }

    /** Turns a missing value into the given error. */
    function ToResult<E>(error: E): Result<T, E> {
      match this
      case Some(v) => Ok(v)
      case None => Err(error)
    }
  }

  datatype Result<+T, +E> = Ok(value: T) | Err(error: E) {
    predicate IsFailure() { Err? }

    function PropagateFailure<U>(): Result<U, E>
      requires Err?
    {
      Err(error)
    }

    function Extract(): T
      requires Ok?
    {
      value
    }

    /** Forgets the error. */
    function ToOption(): Option<T> {
      match this
      case Ok(v) => Some(v)
      case Err(_) => None
    }
  }
}
