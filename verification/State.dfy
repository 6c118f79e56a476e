/** The run's own record: where it is, why it stopped, and what it has been through. */
module RunStates {
  import opened Wrappers
  import opened Machine
  import opened Observations
  import opened Observers
  import opened Evaluators

  datatype InvalidTransition = InvalidTransition(source: Status, target: Status)

  /** The sources a run can re-read, all of one snapshot and no source twice. */
  datatype Base = Base(snapshotId: string, obs: seq<Observation>)

  ghost predicate BaseValid(b: Option<Base>) {
    b.Some? ==> BaseOk(b.value.snapshotId, b.value.obs)
                && forall i | 0 <= i < |b.value.obs| :: Observations.Valid(b.value.obs[i])
  }

  class AtlasRunState {
    const maxIterations: nat
    var status: Status
    var stopReason: Option<StopReason>
    var iteration: nat
    var base: Option<Base>
    var outputs: seq<string>
    var evaluations: seq<Evaluation>
    /** The patterns each adopted observation round was asked to resolve. */
    var rounds: seq<seq<string>>
    /** Every status the run has been in, kept for the proofs. */
    ghost var path: seq<Status>

    constructor (maxIterations: nat, base: Option<Base>)
      ensures this.maxIterations == maxIterations && this.base == base
      ensures Valid() && status == New && iteration == 0
      ensures outputs == [] && evaluations == [] && rounds == []
    {
      this.maxIterations, this.base := maxIterations, base;
      status, stopReason, iteration := New, None, 0;
      outputs, evaluations, rounds, path := [], [], [], [New];
    }

    ghost predicate OnPath()
      reads this
    {
      LegalPath(path) && path[|path| - 1] == status
    }

    /**
     The status is where a legal path ends; a reason is there exactly when the run has ended,
     and is the reason for that very status; approval is only ever asked for after grading.
     */
    ghost predicate Valid()
      reads this
    {
      && OnPath() && iteration <= maxIterations
      && (stopReason.Some? <==> IsTerminal(status))
      && (stopReason.Some? ==> status == StatusFor(stopReason.value))
      && (stopReason == Some(ApprovalRequired) ==> |path| >= 2 && path[|path| - 2] == Evaluating)
    }

    /** Move, refusing a move the table does not allow. */
    method Enter(target: Status) returns (r: Outcome<InvalidTransition>)
      requires OnPath()
      modifies this`status, this`path
      ensures OnPath()
      ensures r.Returned? <==> IsLegal(old(status), target)
      ensures r.Returned? ==> status == target && path == old(path) + [target]
      ensures r.Raised? ==> status == old(status) && path == old(path)
    {
      if !IsLegal(status, target) {
        return Raised(InvalidTransition(status, target));
      }
      path := path + [target];
      status := target;
      return Returned;
    }

    /**
     End the run. A quota stop does not consult the table and only refuses a run that has
     ended; the two agree, so the exception is never one.
     */
    method Stop(reason: StopReason) returns (r: Outcome<InvalidTransition>)
      requires Valid()
      modifies this`status, this`path, this`stopReason
      ensures Valid()
      ensures r.Returned? <==> old(stopReason).None? && (reason == ApprovalRequired ==> old(status) == Evaluating)
      ensures r.Returned? ==> stopReason == Some(reason) && path == old(path) + [StatusFor(reason)]
      ensures r.Raised? ==> stopReason == old(stopReason) && status == old(status) && path == old(path)
    {
      StopIsLegal(status, reason);
      if reason == BudgetExhausted {
        if IsTerminal(status) {
          return Raised(InvalidTransition(status, StatusFor(reason)));
        }
        path := path + [StatusFor(reason)];
        status := StatusFor(reason);
      } else {
        :- Enter(StatusFor(reason));
      }
      stopReason := Some(reason);
      return Returned;
    }
  }
}
