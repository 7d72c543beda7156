/** The local task state machine: statuses, the transition table and its validator. */
module Lifecycle {
  import opened Prelude

  datatype TaskStatus =
    | Created
    | Queued
    | Running
    | CancelRequested
    | InputRequired
    | AuthRequired
    | Completed
    | Canceled
    | Failed

  predicate IsTerminal(status: TaskStatus) {
    status in {Completed, Canceled, Failed}
  }

  /** The rows of the local transition table. */
  function Targets(current: TaskStatus): set<TaskStatus> {
    match current
    case Created => {Queued, Running, Canceled, Failed}
    case Queued => {Running, Canceled, Failed}
    case Running => {InputRequired, AuthRequired, CancelRequested, Completed, Failed}
    case CancelRequested => {Canceled, Failed}
    case InputRequired => {Queued, Canceled, Failed}
    case AuthRequired => {Queued, Canceled, Failed}
    case Completed => {}
    case Canceled => {}
    case Failed => {}
  }

  /** `Ok(false)` is a duplicate target, `Ok(true)` a real change, `Raised` an illegal one. */
  function ValidateTransition(current: TaskStatus, target: TaskStatus): (r: Result<bool>)
    ensures r.Ok? && r.value ==> !IsTerminal(current)
    ensures r.Raised? ==> current != target
  {
    if current == target then Ok(false)
    else if target in Targets(current) then Ok(true)
    else Raised
  }

  /** A sequence of statuses in which each one follows its predecessor in the table. */
  ghost predicate LegalPath(path: seq<TaskStatus>) {
    forall i :: 0 < i < |path| ==> path[i] in Targets(path[i - 1])
  }
}
