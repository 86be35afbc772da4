/**
 * Failure-compatible result types. A C# method that throws is modelled as a
 * function or method returning `Result`, whose `Err` carries the kind of
 * exception the source raises.
 */
module Wrappers {

  datatype Option<+T> = None | Some(value: T)

  /** The exception kinds the modelled code raises. */
  datatype Exception =
    | ArgumentException
    | KeyNotFoundException
    | NotSupportedException
    | ArgumentNullException
    | InvalidOperationException
    | IndexOutOfRangeException
    | DivideByZeroException
    | FormatException
    | InvalidCastException
    | NullReferenceException
    /** The plain `Exception` the source throws with a message. */
    | GeneralException

  datatype Result<+T> = Ok(value: T) | Err(error: Exception) {
    predicate IsFailure() { Err? }

    function PropagateFailure<U>(): Result<U>
      requires Err?
    {
      Err(error)
    }

    function Extract(): T
      requires Ok?
    {
      value
    }
  }

  /** A result that carries no value: the outcome of a void C# method. */
  datatype Outcome = Pass | Fail(error: Exception) {
    predicate IsFailure() { Fail? }

    function PropagateFailure(): Outcome
      requires Fail?
    {
      this
    }
  }
}
