/**
 * Option and Result wrappers, and the Java exceptions the modelled code
 * raises, so that every error path of the source becomes a value.
 */
module Wrappers {

  datatype Option<T> = None | Some(value: T)
  {
    predicate IsSome() { Some? }

    function GetOr(default: T): (r: T)
      ensures Some? ==> r == value
      ensures None? ==> r == default
    {
      match this
      case Some(v) => v
      case None => default
    }
  }

  /** The exceptions that the modelled Java code can throw. */
  datatype Exception =
    | IOException
    | EOFException
    | NumberFormatException
    | IndexOutOfBounds
    | NullPointer
    | ClassCast
    | InvalidConfiguration

  datatype Result<T> = Ok(value: T) | Err(error: Exception)
  {
    predicate IsFailure() { Err? }

    function PropagateFailure<U>(): Result<U>
      requires Err?
    {
      Err(error)
    }

    function Extract(): T
      requires Ok?
    {
      value
    }
  }
}
