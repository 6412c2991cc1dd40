/** Option and Result, used with `:-` where the service raises an HTTP error. */
module Wrappers {

  datatype Option<+T> = None | Some(value: T) {
    predicate IsFailure() { None? }

    function PropagateFailure<U>(): Option<U>
      requires None?
    {
      None
    }

    function Extract(): T
      requires Some?
    {
      value
    }

    function GetOr(default: T): T {
      if Some? then value else default
    }
  }

  /** The outcome of a request: a value, or the HTTP status and detail it was refused with. */
  datatype Result<+T> = Ok(value: T) | Err(status: int, detail: string) {
    predicate IsFailure() { Err? }

    function PropagateFailure<U>(): Result<U>
      requires Err?
    {
      Err(status, detail)
    }

    function Extract(): T
      requires Ok?
    {
      value
    }
  }
}
