/** The exceptions the library raises, as values, and the wrappers that carry them. */
module Errors {

  /** One constructor per .NET exception type the core throws. */
  datatype Error =
    | ArgumentNull              // ArgumentNullException
    | Argument                  // ArgumentException
    | ArgumentOutOfRange        // ArgumentOutOfRangeException
    | InvalidEnumArgument       // InvalidEnumArgumentException
    | Format                    // FormatException
    | ObjectDisposed            // ObjectDisposedException
    | Io                        // IOException
    | Com(hresult: int)         // an exception raised from a failing HRESULT

  datatype Option<+T> = None | Some(value: T)

  datatype Result<+T> = Ok(value: T) | Err(error: Error) {
    predicate IsFailure() { Err? }
    function PropagateFailure<U>(): Result<U>
      requires Err?
    {
      Err(error)
    }
    function Extract(): T
      requires Ok?
    {
      value
    }
  }

  /** The result of an operation that returns nothing (a setter, Save, Reload). */
  datatype Outcome = Done | Failed(error: Error) {
    predicate IsFailure() { Failed? }
    function PropagateFailure(): Outcome
      requires Failed?
    {
      this
    }
  }
}
