/** Failure-compatible wrappers standing in for the Python exceptions the
    modelled code can raise. An exception that aborts a whole construction
    becomes an `Err` carrying the kind of exception raised. */
module Outcomes {

  /** The Python exception kinds the modelled code can raise. */
  datatype Error =
    | IndexError   // subscript past the end of a string or list
    | ValueError   // int() or float() of malformed text
    | KeyError     // lookup of an absent dictionary key
    | NameError    // read of a local variable that was never bound
    | TypeError    // a constructor that returned a value

  datatype Option<+T> = None | Some(value: T)

  datatype Result<+T> = Ok(value: T) | Err(error: Error) {
    predicate IsFailure() {
      Err?
    }

    function PropagateFailure<U>(): Result<U>
      requires Err?
    {
      Err(error)
    }

    function Extract(): T
      requires Ok?
    {
      value
    }
  }

  /** `Some` as `Ok`, `None` as the given error. */
  function OrError<T>(o: Option<T>, e: Error): (r: Result<T>)
    ensures r.Ok? <==> o.Some?
    ensures r.Ok? ==> r.value == o.value
    ensures r.Err? ==> r.error == e
  {
    match o
    case Some(v) => Ok(v)
    case None => Err(e)
  }
}
