/** How a lookup and how a call of a program that may be cut short can end. */
module Outcomes {
  datatype Option<+T> = None | Some(value: T)

  /** With a value, because the process stopped, or because a check refused. */
  datatype Outcome<+T> = Done(value: T) | Crashed | Refused {
    predicate IsFailure() { !Done? }

    function PropagateFailure<U>(): Outcome<U>
      requires IsFailure()
    {
      if Crashed? then Crashed else Refused
    }

    function Extract(): T
      requires Done?
    {
      value
    }
  }
}
