/**
 The run's state machine: which statuses exist, where a run may go from each, and which
 terminal status a stop reason carries.
 */
module Machine {

  datatype Status =
    | New | Observing | Routing | Planning | Executing | Evaluating | Replanning
    | NeedUserApproval | Done | Failed | Cancelled

  datatype StopReason =
    | Passed | InsufficientEvidence | Blocked | ApprovalRequired | BudgetExhausted
    | MaxIterations | NoProgress | ToolError | Cancellation

  datatype StopClass = Evaluation | Runtime | Control

  predicate IsTerminal(s: Status) {
    s in {NeedUserApproval, Done, Failed, Cancelled}
  }

  function StatusFor(reason: StopReason): Status {
    match reason
    case ApprovalRequired => NeedUserApproval
    case ToolError => Failed
    case Cancellation => Cancelled
    case _ => Done
  }

  function ClassOf(reason: StopReason): StopClass {
    match reason
    case Passed => Evaluation
    case InsufficientEvidence => Evaluation
    case ToolError => Runtime
    case _ => Control
  }

  function ReasonText(reason: StopReason): string {
    match reason
    case Passed => "passed"
    case InsufficientEvidence => "insufficient_evidence"
    case Blocked => "blocked"
    case ApprovalRequired => "approval_required"
    case BudgetExhausted => "budget_exhausted"
    case MaxIterations => "max_iterations"
    case NoProgress => "no_progress"
    case ToolError => "tool_error"
    case Cancellation => "cancelled"
  }

  function ClassText(c: StopClass): string {
    match c
    case Evaluation => "evaluation"
    case Runtime => "runtime"
    case Control => "control"
  }

  function StatusText(s: Status): string {
    match s
    case New => "new"
    case Observing => "observing"
    case Routing => "routing"
    case Planning => "planning"
    case Executing => "executing"
    case Evaluating => "evaluating"
    case Replanning => "replanning"
    case NeedUserApproval => "need_user_approval"
    case Done => "done"
    case Failed => "failed"
    case Cancelled => "cancelled"
  }

  /** The loop's own order, before interruptions are added. */
  function LoopTargets(s: Status): set<Status> {
    match s
    case New => {Observing}
    case Observing => {Routing, Replanning}
    case Routing => {Planning}
    case Planning => {Executing}
    case Executing => {Evaluating}
    case Evaluating => {Replanning, Observing, Done, NeedUserApproval}
    case Replanning => {Routing, Done}
    case _ => {}
  }

  function Targets(s: Status): set<Status> {
    if IsTerminal(s) then LoopTargets(s) else LoopTargets(s) + {Done, Failed, Cancelled}
  }

  predicate IsLegal(source: Status, target: Status) {
    target in Targets(source)
  }

  /** A path through the machine: every step is one the table allows. */
  predicate LegalPath(path: seq<Status>) {
    path != [] && path[0] == New
    && forall i | 0 < i < |path| :: IsLegal(path[i - 1], path[i])
  }

  /** A terminal status can only be the last one on a path: a run stops at most once. */
  lemma TerminalIsLast(path: seq<Status>, i: nat)
    requires LegalPath(path) && i < |path| && IsTerminal(path[i])
    ensures i == |path| - 1
  {
    assert i + 1 < |path| ==> IsLegal(path[i], path[i + 1]);
  }

  /**
   Which stops are moves the table allows. Every working status can be stopped for every
   reason, except that approval is only ever asked for after an evaluation. In particular
   a quota stop, which the code makes without consulting the table, is always inside it.
   */
  lemma StopIsLegal(s: Status, reason: StopReason)
    ensures IsLegal(s, StatusFor(reason))
            <==> !IsTerminal(s) && (reason == ApprovalRequired ==> s == Evaluating)
  {
  }

  /** Names why a graded run ended; the first rule that matches is the most specific. */
  function ClassifyStop(
      passed: bool, requiresApproval: bool, isBlocked: bool, hasGaps: bool,
      retryIsPossible: bool, iterationsLeft: bool): (reason: StopReason)
    ensures reason == ApprovalRequired <==> requiresApproval
    ensures reason == Passed <==> passed && !requiresApproval
    ensures var fellShort := !passed && !requiresApproval;
            var isSpent := retryIsPossible && !iterationsLeft;
            && (reason == Blocked <==> fellShort && isBlocked)
            && (reason == MaxIterations <==> fellShort && !isBlocked && isSpent)
            && (reason == InsufficientEvidence <==> fellShort && !isBlocked && !isSpent && hasGaps)
            && (reason == NoProgress <==> fellShort && !isBlocked && !isSpent && !hasGaps)
  {
    if requiresApproval then ApprovalRequired
    else if passed then Passed
    else if isBlocked then Blocked
    else if retryIsPossible && !iterationsLeft then MaxIterations
    else if hasGaps then InsufficientEvidence
    else NoProgress
  }
}
