/** Option and error outcomes shared by every module of the model. */
module Wrappers {

  /** A value that may be absent: a missing JSON field, a missing row, a JavaScript `null`/`undefined`. */
  datatype Option<+T> = None | Some(value: T) {
    function GetOr(default: T): T {
      match this
      case Some(v) => v
      case None => default
    }
  }

  /** What an operation throws: an `Error` with a message, or the engine's own errors. */
  datatype Error =
    | Thrown(message: string)  // `throw new Error(message)`
    | SyntaxError              // `JSON.parse` of malformed text
    | TypeError                // a property read or assignment on `null` / `undefined`
    | RangeError               // `toISOString` of a Date outside the representable range
    | IndexError               // Python indexing past the end of a list

  /** The outcome of an operation that may throw. */
  datatype Result<+T> = Ok(value: T) | Err(error: Error) {
    predicate IsFailure() {
      Err?
    }

    function PropagateFailure<U>(): Result<U>
      requires Err?
    {
      Err(error)
    }

    function Extract(): T
      requires Ok?
    {
      value
    }
  }
}
