/** The outcome of a dispatch, as the interpreter sees it. */
module Verdicts {
  /** How the execution of a context ends. */
  datatype Verdict = Failed | Succeeded | SwitchTo(key: nat) | Cancelled | Aborted

  /** The verdict of the n-th dispatch, whose last task has the given event. */
  type Oracle = (nat, string) -> Verdict
}
