/** internal/workflow/state_machine.go: the 22 state-to-state edges. */
module Workflow {
  import opened Domain

  function Targets(from: TaskState): set<TaskState> {
    match from
    case Draft => {Ready, Cancelled}
    case Ready => {Dispatched, Cancelled}
    case Dispatched => {Running, Failed}
    case Running => {ReportReady, Failed, Blocked}
    case ReportReady => {EvidenceReady, Failed}
    case EvidenceReady => {Reviewing, Failed}
    case Reviewing => {Approved, RevisionRequired, Blocked}
    case Approved => {}
    case RevisionRequired => {Ready}
    case Blocked => {HumanRequired}
    case Failed => {HumanRequired, Ready}
    case HumanRequired => {Draft, Cancelled}
    case Cancelled => {}
  }

  predicate CanTransition(from: TaskState, to: TaskState) { to in Targets(from) }
}
