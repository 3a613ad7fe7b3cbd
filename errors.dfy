/** Error values shared by the whole model.
    The first four are the game's own exceptions; the others stand for the
    Python runtime and database errors that the modelled code can raise. */
module Errors {

  datatype Error =
    | NotAllowed
    | NotFound
    | DuplicateAction
    | OutOfCards
    | IntegrityError   // a unique or not-null constraint of a table refused the row
    | AssertionError
    | KeyError
    | TypeError
    | AttributeError
    | IndexError

  datatype Option<+T> = None | Some(value: T)

  datatype Result<+T> = Ok(value: T) | Err(error: Error) {
    predicate IsFailure() { Err? }

    function PropagateFailure<U>(): Result<U>
      requires Err?
    {
      Err(error)
    }

    function Extract(): T
      requires Ok?
    {
      value
    }
  }
}
