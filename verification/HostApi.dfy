/**
 What a separate process sees of a run: its status, its events as they are appended, and
 the sealing of a run whose worker is gone.

 A run and an observer share only the run's lock and its log, so every statement here is
 over all interleavings of the two.
 */
module HostApi {
  import opened Wrappers
  import opened Chains
  import opened Machine
  import opened EventLogs
  import opened Inspect

  // ------------------------------------------------------- the run, step by step

  /**
   The lock and the log of one run id. A crash releases the lock, because the operating
   system does; a resume that is refused, or a run that an exception escapes, lets go of it. A
   later process may take it again. `losses` counts the locks given up without a stop.
   */
  datatype World = World(
    runId: string, locked: bool, lockFile: bool, log: History, losses: nat)

  datatype Step =
    | TakeLock
    | AppendEvent(iteration: nat, body: Body)
    | AppendStop(iteration: nat, reason: StopReason)
    | Release
    | LetGo
    | Crash

  /** A run holds its lock from before its first record until after its stop, or loses it before. */
  predicate Enabled(w: World, step: Step) {
    match step
    case TakeLock => !w.locked
    case AppendEvent(_, body) => w.locked && !body.RunStopped? && MayFollow(w.runId, w.log, body)
    case AppendStop(_, _) => w.locked && w.log != [] && !HasStop(w.log)
    case Release => w.locked && HasStop(w.log)
    case LetGo => w.locked && !HasStop(w.log)
    case Crash => w.locked
  }

  function After(w: World, step: Step): World {
    match step
    case TakeLock => w.(locked := true, lockFile := true)
    case AppendEvent(iteration, body) => w.(log := w.log + [Entry(w.runId, w.log, iteration, body)])
    case AppendStop(iteration, reason) => w.(log := w.log + [Entry(w.runId, w.log, iteration, StopBody(reason))])
    case Release => w.(locked := false)
    case LetGo => w.(locked := false, losses := w.losses + 1)
    case Crash => w.(locked := false, losses := w.losses + 1)
  }

  predicate Sound(w: World) {
    Accepts(w.runId, w.log)
  }

  /** A process is running this id, or its stop is in the log. */
  predicate Accounted(w: World) {
    w.locked || HasStop(w.log)
  }

  /** What an observer may rely on between two looks. */
  predicate Later(a: World, b: World) {
    && b.runId == a.runId
    && a.log <= b.log
    && (HasStop(a.log) ==> b.log == a.log)
    && a.losses <= b.losses
    && (Accounted(a) && a.losses == b.losses ==> Accounted(b))
    && (Sound(a) ==> Sound(b))
    && (a.lockFile ==> b.lockFile)
  }

  lemma StepIsLater(w: World, step: Step)
    requires Enabled(w, step)
    ensures Later(w, After(w, step))
  {
    match step {
      case AppendEvent(iteration, body) =>
        if Sound(w) { Grows(w.runId, w.log, iteration, body); }
        HasStopGrows(w.log, Entry(w.runId, w.log, iteration, body));
      case AppendStop(iteration, reason) =>
        if Sound(w) { Grows(w.runId, w.log, iteration, StopBody(reason)); }
        HasStopGrows(w.log, Entry(w.runId, w.log, iteration, StopBody(reason)));
      case _ =>
    }
  }

  lemma HasStopGrows(h: History, e: Event)
    ensures HasStop(h + [e]) <==> HasStop(h) || e.body.RunStopped?
  {
    assert (h + [e])[..|h|] == h;
  }

  lemma LaterTransitive(a: World, b: World, c: World)
    requires Later(a, b) && Later(b, c)
    ensures Later(a, c)
  {
  }

  /** An execution: every world is what some enabled step made of the one before. */
  predicate IsExecution(ws: seq<World>, steps: seq<Step>) {
    |ws| == |steps| + 1
    && forall i | 0 <= i < |steps| :: Enabled(ws[i], steps[i]) && ws[i + 1] == After(ws[i], steps[i])
  }

  lemma LaterIsPreorder()
    ensures Transitive(Later) && Reflexive(Later)
  {
    forall a, b, c | Later(a, b) && Later(b, c) ensures Later(a, c) {
      LaterTransitive(a, b, c);
    }
  }

  lemma ExecutionIsLater(ws: seq<World>, steps: seq<Step>, i: nat, j: nat)
    requires IsExecution(ws, steps) && i <= j < |ws|
    ensures Later(ws[i], ws[j])
  {
    forall k | i <= k < j ensures Later(ws[k], ws[k + 1]) {
      StepIsLater(ws[k], steps[k]);
    }
    LaterIsPreorder();
    Chain(ws, Later, i, j);
  }

  // ------------------------------------------------------------------ run_status

  datatype RunState = NotFound | Running | Finished | Interrupted

  /** The lock was probed first; then the log was read to see that it is there, and again for a report. */
  function StatusOf(alive: bool, first: History, second: History): RunState {
    if first == [] then if alive then Running else NotFound
    else if HasStop(second) then RunState.Finished
    else if alive then Running
    else RunState.Interrupted
  }

  /** The indices of one look at a run: probe, first reading, second reading. */
  predicate IsLook(ws: seq<World>, probe: nat, first: nat, second: nat) {
    probe <= first <= second < |ws|
  }

  /**
   Over every interleaving: a run that took its lock before the probe, and had not crashed or
   let go of it by then, is never reported interrupted, whenever the log is read after that.
   */
  lemma NeverMistakenForInterrupted(
      ws: seq<World>, steps: seq<Step>, taken: nat, probe: nat, first: nat, second: nat)
    requires IsExecution(ws, steps) && IsLook(ws, probe, first, second)
    requires taken < probe && steps[taken] == TakeLock
    requires ws[probe].losses == ws[taken].losses
    ensures StatusOf(ws[probe].locked, ws[first].log, ws[second].log) != RunState.Interrupted
  {
    ExecutionIsLater(ws, steps, taken, taken + 1);
    ExecutionIsLater(ws, steps, taken + 1, probe);
    ExecutionIsLater(ws, steps, probe, second);
    assert ws[taken + 1] == After(ws[taken], TakeLock);
  }

  lemma {:induction false} LockWasTaken(ws: seq<World>, steps: seq<Step>, i: nat, j: nat) returns (taken: nat)
    requires IsExecution(ws, steps) && i <= j < |ws| && !ws[i].locked && ws[j].locked
    ensures i <= taken < j && steps[taken] == TakeLock
    decreases j
  {
    taken := j - 1;
    assert Enabled(ws[j - 1], steps[j - 1]) && ws[j] == After(ws[j - 1], steps[j - 1]);
    if steps[j - 1] != TakeLock {
      taken := LockWasTaken(ws, steps, i, j - 1);
    }
  }

  /**
   And the other way round: a run that was reported interrupted and held its lock when the log
   was read took that lock between the probe and the reading. Nothing else misreports one.
   */
  lemma MisreportedMeansStartedBetween(ws: seq<World>, steps: seq<Step>, probe: nat, first: nat, second: nat)
    requires IsExecution(ws, steps) && IsLook(ws, probe, first, second)
    requires StatusOf(ws[probe].locked, ws[first].log, ws[second].log) == RunState.Interrupted
    requires ws[second].locked
    ensures exists taken: nat :: probe <= taken < second && steps[taken] == TakeLock
  {
    var taken := LockWasTaken(ws, steps, probe, second);
  }

  /** A finished report is final: every later status is finished, with the same log. */
  lemma FinishedIsFinal(ws: seq<World>, steps: seq<Step>, i: nat, first: nat, second: nat, alive: bool)
    requires IsExecution(ws, steps) && IsLook(ws, i, first, second) && HasStop(ws[i].log)
    ensures StatusOf(alive, ws[first].log, ws[second].log) == RunState.Finished
    ensures ws[first].log == ws[second].log == ws[i].log
  {
    ExecutionIsLater(ws, steps, i, first);
    ExecutionIsLater(ws, steps, i, second);
  }

  /** The hypothesis is needed: a run that starts between the two looks is misreported. */
  lemma StartBetweenLooksIsMisreported(runId: string, binding: Binding)
    ensures var idle := World(runId, false, false, [], 0);
            var steps := [TakeLock, AppendEvent(0, RunStarted(binding))];
            var ws := [idle, After(idle, steps[0]), After(After(idle, steps[0]), steps[1])];
            && IsExecution(ws, steps)
            && ws[2].locked
            && StatusOf(ws[0].locked, ws[2].log, ws[2].log) == RunState.Interrupted
  {
    var idle := World(runId, false, false, [], 0);
    var held := After(idle, TakeLock);
    HasStopGrows([], Entry(runId, [], 0, RunStarted(binding)));
  }

  // --------------------------------------------------------------- follow_events

  datatype FollowEnd = SawStop | FollowInterrupted | FollowTimedOut

  class Host {
    var world: World

    constructor (world: World)
      ensures this.world == world
    {
      this.world := world;
    }

    /** Anything the run does between two of the observer's looks. */
    method Others()
      modifies this
      ensures Later(old(world), world)
    {
      var steps: nat := *;
      while steps > 0
        invariant Later(old(world), world)
      {
        var step: Step := *;
        if Enabled(world, step) {
          StepIsLater(world, step);
          LaterTransitive(old(world), world, After(world, step));
          world := After(world, step);
        }
        steps := steps - 1;
      }
    }

    method IsLocked() returns (alive: bool)
      ensures alive == world.locked
    {
      alive := world.locked;
    }

    method Records() returns (records: History)
      ensures records == world.log
    {
      records := world.log;
    }

    /** Probe the lock, then read the log; a free lock means a stop in the log or a lock lost. */
    method Look() returns (alive: bool, records: History)
      modifies this
      ensures Later(old(world), world) && records == world.log
      ensures !alive && old(Accounted(world)) ==> HasStop(records) || world.losses > old(world.losses)
    {
      Others();
      ghost var probed := world;
      alive := IsLocked();
      Others();
      LaterTransitive(old(world), probed, world);
      records := Records();
    }

    /**
     Follow one run to its stop, or until it is interrupted or the time is up after `polls`
     looks. What has been yielded is always a gap-free, repeat-free prefix of the history,
     and the whole of it when the run was seen to stop.
     */
    method FollowEvents(polls: nat) returns (end: FollowEnd, yielded: History)
      modifies this
      ensures yielded <= world.log
      ensures end == SawStop ==> HasStop(yielded) && (old(Sound(world)) ==> yielded == world.log)
      ensures end != SawStop ==> !HasStop(yielded)
      ensures end == FollowInterrupted ==> yielded != []
      ensures end == FollowInterrupted && old(Accounted(world)) ==> world.losses > old(world.losses)
    {
      yielded := [];
      var left := polls;
      while true
        invariant Later(old(world), world)
        invariant yielded <= world.log && !HasStop(yielded)
        decreases left
      {
        ghost var before := world;
        var alive, records := Look();
        LaterTransitive(old(world), before, world);
        var stopped;
        stopped, yielded := Yield(records, yielded);
        if stopped {
          if Sound(world) { StopIsAll(world.runId, records, |yielded|); }
          return SawStop, yielded;
        }
        if records != [] && !alive && world.lockFile {
          return FollowInterrupted, yielded;
        }
        if left == 0 {
          return FollowTimedOut, yielded;
        }
        left := left - 1;
      }
    }
  }

  /** Hand on the records after those already seen, up to and including a stop. */
  method Yield(records: History, seen: History) returns (stopped: bool, yielded: History)
    requires seen <= records && !HasStop(seen)
    ensures seen <= yielded <= records
    ensures stopped <==> HasStop(yielded)
    ensures !stopped ==> yielded == records
    ensures stopped ==> !HasStop(yielded[..|yielded| - 1])
  {
    yielded := seen;
    while |yielded| < |records|
      invariant seen <= yielded <= records
      invariant !HasStop(yielded)
      decreases |records| - |yielded|
    {
      var record := records[|yielded|];
      HasStopGrows(yielded, record);
      assert (yielded + [record])[..|yielded|] == yielded;
      yielded := yielded + [record];
      if record.body.RunStopped? {
        return true, yielded;
      }
    }
    return false, yielded;
  }

  lemma StopIsAll(runId: string, h: History, k: nat)
    requires Accepts(runId, h) && k <= |h| && HasStop(h[..k])
    ensures h[..k] == h
  {
    PrefixAccepted(runId, h, k);
  }

  // ---------------------------------------------------------------- seal_lost_run

  datatype SealError = LockHeld | HoldsAnotherRun | NotAValidLog

  method FindStop(records: History) returns (logged: Option<string>)
    ensures logged.Some? <==> HasStop(records)
    ensures logged.Some? ==> logged.value == LoggedReason(records)
  {
    for n := 0 to |records|
      invariant !HasStop(records[..n])
    {
      assert records[..n + 1] == records[..n] + [records[n]];
      HasStopGrows(records[..n], records[n]);
      if records[n].body.RunStopped? {
        StopFound(records, n);
        return Some(records[n].body.reason);
      }
    }
    assert records[..|records|] == records;
    return None;
  }

  method LastIteration(records: History) returns (last: nat)
    ensures forall i | 0 <= i < |records| :: records[i].iteration <= last
    ensures last == 0 || exists i | 0 <= i < |records| :: records[i].iteration == last
  {
    last := 0;
    for n := 0 to |records|
      invariant forall i | 0 <= i < n :: records[i].iteration <= last
      invariant last == 0 || exists i | 0 <= i < n :: records[i].iteration == last
    {
      if records[n].iteration > last {
        last := records[n].iteration;
      }
    }
  }

  /** The records of a log file, and whether a dead writer left a fragment after them. */
  class LogStore {
    var records: History
    var torn: bool

    constructor (records: History, torn: bool)
      ensures this.records == records && this.torn == torn
    {
      this.records := records;
      this.torn := torn;
    }

    /**
     Record the stop of a run whose worker is gone, unless one is already logged.
     Returns the logged reason and whether this call wrote it.
     */
    method SealLostRun(runId: string, reason: StopReason, binding: Binding)
        returns (r: Result<(string, bool), SealError>)
      requires runId != ""
      modifies this
      ensures r.Err? ==> records == old(records)
      ensures r.Ok? ==> !torn && HasStop(records) && r.value.0 == LoggedReason(records)
      ensures r.Ok? && !r.value.1 ==> records == old(records)
      ensures r.Ok? && r.value.1 ==>
                && !HasStop(old(records)) && r.value.0 == ReasonText(reason)
                && exists iteration | 0 <= iteration ::
                     records == SealedBy(runId, old(records), iteration, reason, binding)
      ensures r.Ok? && HasStop(old(records)) ==> r == Ok((LoggedReason(old(records)), false))
      ensures r.Ok? && (old(records) == [] || ValidHistory(old(records), runId)) ==>
                ValidHistory(records, runId)
    {
      var gotLocks: bool := *;
      if !gotLocks {
        return Err(LockHeld);
      }
      torn := false;
      if exists i | 0 <= i < |records| :: records[i].runId != runId {
        return Err(HoldsAnotherRun);
      }
      var logged := FindStop(records);
      if logged.Some? {
        return Ok((logged.value, false));
      }
      var log := EventLog.Open(runId, records);
      if log.Err? {
        return Err(NotAValidLog);
      }
      var last := LastIteration(records);
      if records == [] {
        log.value.Append(0, RunStarted(binding));
      }
      log.value.Append(last, StopBody(reason));
      SealIsValid(runId, records, last, reason, binding);
      records := log.value.events;
      return Ok((ReasonText(reason), true));
    }

    /** Sealing twice changes nothing more and reports the reason that was logged first. */
    method SealTwice(runId: string, first: StopReason, second: StopReason, binding: Binding)
        returns (a: Result<(string, bool), SealError>, b: Result<(string, bool), SealError>,
                 ghost between: History)
      requires runId != ""
      modifies this
      ensures a.Ok? ==> HasStop(between) && a.value.0 == LoggedReason(between) && records == between
      ensures a.Ok? && a.value.1 ==>
                exists iteration | 0 <= iteration ::
                  between == SealedBy(runId, old(records), iteration, first, binding)
      ensures a.Ok? && !a.value.1 ==> between == old(records)
      ensures a.Ok? && b.Ok? ==> b == Ok((a.value.0, false))
    {
      a := SealLostRun(runId, first, binding);
      between := records;
      b := SealLostRun(runId, second, binding);
    }
  }

  /** A history with the parent's records after it. */
  function SealedBy(runId: string, h: History, iteration: nat, reason: StopReason, binding: Binding): History {
    var begun := if h == [] then [Entry(runId, [], 0, RunStarted(binding))] else h;
    begun + [Entry(runId, begun, iteration, StopBody(reason))]
  }

  /** The reason on the first stop in a history. */
  function LoggedReason(h: History): string
    requires HasStop(h)
  {
    if HasStop(h[..|h| - 1]) then LoggedReason(h[..|h| - 1]) else h[|h| - 1].body.reason
  }

  lemma {:induction false} StopFound(h: History, n: nat)
    requires n < |h| && h[n].body.RunStopped? && !HasStop(h[..n])
    ensures HasStop(h) && LoggedReason(h) == h[n].body.reason
  {
    if n < |h| - 1 {
      assert h[..|h| - 1][..n] == h[..n];
      StopFound(h[..|h| - 1], n);
    }
  }

  lemma SealIsValid(runId: string, h: History, iteration: nat, reason: StopReason, binding: Binding)
    requires !HasStop(h)
    ensures var s := SealedBy(runId, h, iteration, reason, binding);
            && HasStop(s) && LoggedReason(s) == ReasonText(reason)
            && (h == [] || ValidHistory(h, runId) ==> ValidHistory(s, runId))
  {
    var start := Entry(runId, [], 0, RunStarted(binding));
    var begun := if h == [] then [start] else h;
    assert [] + [start] == [start];
    HasStopGrows([], start);
    Grows(runId, [], 0, RunStarted(binding));
    GrownIsValid(runId, h);
    var s := SealedBy(runId, h, iteration, reason, binding);
    assert s[..|s| - 1] == begun;
    if Accepts(runId, begun) { Grows(runId, begun, iteration, StopBody(reason)); }
    GrownIsValid(runId, s);
  }
}
