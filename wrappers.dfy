/** Option and Result, and the JavaScript failures the model distinguishes. */
module Wrappers {

  datatype Option<+T> = None | Some(value: T) {
    function GetOr(default: T): T {
      match this
      case Some(v) => v
      case None => default
    }
  }

  /** How a JavaScript computation of the source can stop instead of returning. */
  datatype JsError =
    | RangeError              // a DataView read outside the buffer
    | TypeError(what: string) // a property read or a call on undefined or null
    | StackOverflow           // recursion deeper than the fuel the model is given
    | Undefined(what: string) // the source would go on with `undefined`; the model stops
    | Unmodelled(what: string) // a value the model does not interpret (a float, say)

  datatype Result<+T> = Ok(value: T) | Err(error: JsError) {
    predicate IsFailure() {
      Err?
    }

    function PropagateFailure<U>(): Result<U>
      requires Err?
    {
      Err(error)
    }

    function Extract(): T
      requires Ok?
    {
      value
    }
  }
}
