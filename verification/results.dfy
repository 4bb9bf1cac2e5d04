/**
 Optional values and the failure-carrying result used throughout the model.

 C# `null` becomes `None`; an exception thrown by the library becomes an
 `Err` carrying the kind of exception, so that every error path of the
 adapters is an ordinary value the contracts can talk about.
 */
module Results {

  /** A value that may be absent (a nullable reference in the adapters). */
  datatype Option<+T> = None | Some(value: T) {

    /** The value, or `default` when absent (`GetValueOrDefault`). */
    function GetOr(default: T): T {
      match this
      case Some(v) => v
      case None => default
    }
  }

  /** The exceptions the modelled code can raise. */
  datatype Failure =
    | ArgumentNull(paramName: string)     // ArgumentNullException
    | ArgumentInvalid(paramName: string)  // ArgumentException (empty or blank)
    | IndexOutOfRange                     // array index past the end
    | Format                              // a number that does not parse
    | Transport                           // any failure of the HTTP call or JSON decoding

  /** Either a value or the exception that prevented it; usable with `:-`. */
  datatype Result<+T> = Ok(value: T) | Err(error: Failure) {

    predicate IsFailure() {
      Err?
    }

    function PropagateFailure<U>(): Result<U>
      requires Err?
    {
      Err(error)
    }

    function Extract(): T
      requires Ok?
    {
      value
    }

    /** Applies `f` to a successful value, keeping any failure as it is. */
    function Map<U>(f: T -> U): (r: Result<U>)
      ensures Ok? <==> r.Ok?
      ensures Ok? ==> r.value == f(value)
      ensures Err? ==> r.error == error
    {
      match this
      case Ok(v) => Ok(f(v))
      case Err(e) => Err(e)
    }
  }
}
