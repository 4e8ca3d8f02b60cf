/** Result types for the panics and exceptions of the modelled programs. */
module Wrappers {
  datatype Option<+T> = None | Some(value: T)

  /** How a modelled program stops: an assertion of its own, or the two-gigabyte growth limit. */
  datatype Panic = Misuse | TooLarge

  datatype Outcome = Pass | Fail(panic: Panic) {
    predicate IsFailure() {
      Fail?
    }

    function PropagateFailure(): Outcome
      requires Fail?
    {
      this
    }
  }
}
