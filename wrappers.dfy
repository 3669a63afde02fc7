/** Failure-compatible wrappers shared by every module: an optional value
    (Python's `None` or a value) and a result that is either a value or the
    exception the original code raises. */
module Wrappers {

  datatype Option<+T> = None | Some(value: T) {
    predicate IsFailure() { None? }

    function PropagateFailure<U>(): Option<U>
      requires None?
    {
      None
    }

    function Extract(): T
      requires Some?
    {
      value
    }
  }

  /** The exceptions the modelled code can raise. `NotANumber` stands for a
      numpy computation that silently produces NaN instead of raising. */
  datatype Error =
    | TypeError
    | KeyError
    | ValueError
    | IndexError
    | ZeroDivisionError
    | OverflowError
    | AttributeError
    | NameError
    | NotANumber
    | Raised(message: string)
    | ConfigError(msg: Option<string>)
    | MissingError(keys: seq<string>)

  datatype Result<+T> = Ok(value: T) | Err(error: Error) {
    predicate IsFailure() { Err? }

    function PropagateFailure<U>(): Result<U>
      requires Err?
    {
      Err(error)
    }

    function Extract(): T
      requires Ok?
    {
      value
    }
  }

  /** Outcome of a call that, when it succeeds, returns nothing of interest. */
  datatype Outcome = Pass | Fail(error: Error) {
    predicate IsFailure() { Fail? }

    function PropagateFailure(): Outcome
      requires Fail?
    {
      this
    }
  }
}
