/** How an awaited step ends: it returns, it throws, or the process dies in it. */
module Outcomes {
  datatype Option<+T> = None | Some(value: T)

  /** The codes of the settings error that the ownership code branches on. */
  datatype ErrorCode = Conflict | InvalidRequest | NotFound | Rejected | TimedOut

  /** `Crashed` cannot be caught: every caller passes it on without another step. */
  datatype Outcome<+T> = Done(value: T) | Failed(code: ErrorCode) | Crashed {
    predicate IsFailure() {
      !Done?
    }

    function PropagateFailure<U>(): Outcome<U>
      requires IsFailure()
    {
      if Crashed? then Crashed else Failed(code)
    }

    function Extract(): T
      requires Done?
    {
      value
    }
  }
}
