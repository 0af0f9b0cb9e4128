/** Option, Result and the exceptions the session raises. */
module Results {

  datatype Option<+T> = None | Some(value: T) {
    function GetOr(default: T): T {
      match this
      case Some(v) => v
      case None => default
    }
  }

  /** The Python exceptions that the modelled code raises, each with its message. */
  datatype Error =
    | Oct2PyError(msg: string)      // oct2py.utils.Oct2PyError
    | ValueError(msg: string)
    | TypeError(msg: string)
    | AttributeError(msg: string)   // e.g. using the engine after it was set to None
    | IndexError(msg: string)
    | EndOfFile(msg: string)        // pexpect's EOF, when the interpreter process has gone

  datatype Result<+T> = Ok(value: T) | Err(error: Error) {
    predicate IsFailure() { Err? }

    function PropagateFailure<U>(): Result<U>
      requires Err?
    {
      Err(error)
    }

    function Extract(): T
      requires Ok?
    {
      value
    }
  }
}
