/**
 Write approval: a person's yes to one exact operation, spent once.

 The authority's transitions are functions on its state, so that what holds over every
 sequence of requests, answers and writes can be said and proved about them; the class
 below does the same in place.
 */
module Approval {
  import opened Wrappers
  import opened Lines
  import opened Json
  import opened EventLogs

  // -------------------------------------------------------------- operations

  datatype OperationKind = Diff | Command | Ref

  /** One exact write, with its arguments in canonical form. */
  datatype Operation = Operation(
    kind: OperationKind, tool: string, arguments: Json, repo: string, ref: string, head: string)

  /** SHA-256 of the canonical operation, taken to be injective. */
  datatype OperationDigest = Sha256(of: Operation)

  /** A read-only copy of arguments, all the way down. */
  datatype Frozen =
    | Scalar(value: Json)
    | FrozenList(items: seq<Frozen>)
    | FrozenMap(names: seq<string>, values: seq<Frozen>)

  function Freeze(v: Json): (f: Frozen)
    decreases v
  {
    match v
    case Arr(items) => FrozenList(seq(|items|, i requires 0 <= i < |items| => Freeze(items[i])))
    case Obj(fields) =>
      FrozenMap(seq(|fields|, i requires 0 <= i < |fields| => fields[i].name),
                seq(|fields|, i requires 0 <= i < |fields| => Freeze(fields[i].value)))
    case _ => Scalar(v)
  }

  function Thaw(f: Frozen): Json
    decreases f
  {
    match f
    case Scalar(value) => value
    case FrozenList(items) => Arr(seq(|items|, i requires 0 <= i < |items| => Thaw(items[i])))
    case FrozenMap(names, values) =>
      Obj(seq(|values|, i requires 0 <= i < |values| =>
                Field(if i < |names| then names[i] else "", Thaw(values[i]))))
  }

  /** What is kept of an approval is what was asked: thawing undoes freezing. */
  lemma {:induction false} ThawFreeze(v: Json)
    ensures Thaw(Freeze(v)) == v
    decreases v
  {
    match v {
      case Arr(items) =>
        forall i | 0 <= i < |items| ensures Thaw(Freeze(items[i])) == items[i] { ThawFreeze(items[i]); }
      case Obj(fields) =>
        forall i | 0 <= i < |fields| ensures Thaw(Freeze(fields[i].value)) == fields[i].value {
          ThawFreeze(fields[i].value);
        }
      case _ =>
    }
  }

  // ------------------------------------------------------- the authority's state

  type Token = string

  const MAX_TTL_SECONDS := 3600.0

  datatype Grant = Grant(token: Token, giver: string, expiresMonotonic: real, expiresWall: real)

  /** A request and what became of it; an approval's id is its position. */
  datatype Pending = Pending(operation: Operation, decision: Decision, grant: Option<Grant>)

  /** One `approval_recorded` event; an unknown token names no approval. */
  datatype Record = Record(decision: Decision, approval: Option<nat>, digest: OperationDigest)

  /** One run of a write handler, and the arguments it ran on. */
  datatype Execution = Execution(
    approval: nat, operation: Operation, arguments: Json, monotonic: real, wall: real, head: string)

  datatype State = State(pending: seq<Pending>, records: seq<Record>, executions: seq<Execution>)

  const NOTHING := State([], [], [])

  datatype RejectReason =
    | UnknownToken | AlreadyUsed | NotGranted | Expired | StateUnpinned | HeadMoved | OperationMismatch

  datatype ApprovalError =
    | BlankName | BadTtl | NoSuchRequest | AlreadyAnswered | WriteRejected(reason: RejectReason)

  /** The two clocks and the repository, as they answer at one moment. */
  datatype Now = Now(monotonic: real, wall: real, head: Option<string>)

  /** The state probe answers for the repository of the approved operation. */
  function Rejection(item: Pending, operation: Operation, now: Now): Option<RejectReason> {
    if item.decision == Consumed then Some(AlreadyUsed)
    else if item.decision != Granted || item.grant.None? then Some(NotGranted)
    else if now.monotonic >= item.grant.value.expiresMonotonic || now.wall >= item.grant.value.expiresWall
    then Some(Expired)
    else if now.head.None? then Some(StateUnpinned)
    else if now.head.value != item.operation.head then Some(HeadMoved)
    else if Sha256(operation) != Sha256(item.operation) then Some(OperationMismatch)
    else None
  }

  predicate Holds(item: Pending, token: Token) {
    item.grant.Some? && item.grant.value.token == token
  }

  function Find(pending: seq<Pending>, token: Token): (r: Option<nat>)
    ensures r.Some? ==> r.value < |pending| && Holds(pending[r.value], token)
    ensures r.None? ==> forall i | 0 <= i < |pending| :: !Holds(pending[i], token)
  {
    FindFrom(pending, token, 0)
  }

  function FindFrom(pending: seq<Pending>, token: Token, i: nat): (r: Option<nat>)
    requires i <= |pending|
    ensures r.Some? ==> i <= r.value < |pending| && Holds(pending[r.value], token)
    ensures r.None? ==> forall k | i <= k < |pending| :: !Holds(pending[k], token)
    decreases |pending| - i
  {
    if i == |pending| then None
    else if Holds(pending[i], token) then Some(i)
    else FindFrom(pending, token, i + 1)
  }

  datatype Step =
    | Request(operation: Operation)
    | GrantIt(id: nat, giver: string, ttl: real, token: Token, now: Now)
    | Refuse(id: nat, giver: string)
    | Consume(token: Token, operation: Operation, now: Now)
    /** A consume followed by the budget's answer: the handler runs when both agree. */
    | Write(token: Token, operation: Operation, arguments: Json, now: Now, budgetAllows: bool)

  function Answered(s: State, id: nat, item: Pending): State
    requires id < |s.pending|
  {
    s.(pending := s.pending[id := item],
       records := s.records + [Record(item.decision, Some(id), Sha256(item.operation))])
  }

  function AfterConsume(s: State, token: Token, operation: Operation, now: Now): (State, Option<nat>) {
    match Find(s.pending, token)
    case None => (s.(records := s.records + [Record(Rejected, None, Sha256(operation))]), None)
    case Some(id) =>
      var item := s.pending[id];
      if Rejection(item, operation, now).Some?
      then (s.(records := s.records + [Record(Rejected, Some(id), Sha256(item.operation))]), None)
      else (Answered(s, id, item.(decision := Consumed)), Some(id))
  }

  function GrantOf(step: Step): Grant
    requires step.GrantIt?
  {
    Grant(step.token, step.giver, step.now.monotonic + step.ttl, step.now.wall + step.ttl)
  }

  predicate MayGrant(s: State, step: Step) {
    step.GrantIt? && !Blank(step.giver) && 0.0 < step.ttl <= MAX_TTL_SECONDS
    && step.id < |s.pending| && s.pending[step.id].decision == Requested
  }

  function After(s: State, step: Step): State {
    match step
    case Request(operation) =>
      s.(pending := s.pending + [Pending(operation, Requested, None)],
         records := s.records + [Record(Requested, Some(|s.pending|), Sha256(operation))])
    case GrantIt(id, _, _, _, _) =>
      if !MayGrant(s, step) then s
      else Answered(s, id, s.pending[id].(decision := Granted, grant := Some(GrantOf(step))))
    case Refuse(id, _) =>
      if id < |s.pending| && s.pending[id].decision == Requested
      then Answered(s, id, s.pending[id].(decision := Refused))
      else s
    case Consume(token, operation, now) => AfterConsume(s, token, operation, now).0
    case Write(token, operation, arguments, now, budgetAllows) =>
      var (after, id) := AfterConsume(s, token, operation, now);
      if id.Some? && now.head.Some? && budgetAllows
      then after.(executions := after.executions
                    + [Execution(id.value, operation, arguments, now.monotonic, now.wall, now.head.value)])
      else after
  }

  // ------------------------------------------------------------ what every run keeps

  /** The decisions logged for one approval, rejections aside, in order. */
  function Decisions(records: seq<Record>, id: nat): seq<Decision> {
    if records == [] then []
    else
      var r := records[|records| - 1];
      Decisions(records[..|records| - 1], id)
      + if r.approval == Some(id) && r.decision != Rejected then [r.decision] else []
  }

  /** The only histories an approval can have. */
  function Expected(decision: Decision): seq<Decision> {
    match decision
    case Granted => [Requested, Granted]
    case Refused => [Requested, Refused]
    case Consumed => [Requested, Granted, Consumed]
    case _ => [Requested]
  }

  predicate ItemOk(s: State, id: nat)
    requires id < |s.pending|
  {
    var item := s.pending[id];
    && item.decision != Rejected
    && (item.grant.Some? <==> item.decision == Granted || item.decision == Consumed)
    && Decisions(s.records, id) == Expected(item.decision)
  }

  predicate TokensDiffer(pending: seq<Pending>) {
    forall i, j | 0 <= i < j < |pending| && pending[i].grant.Some? && pending[j].grant.Some? ::
      pending[i].grant.value.token != pending[j].grant.value.token
  }

  /** A handler ran on exactly the operation that was granted, in time, at its commit. */
  predicate ExecutionOk(pending: seq<Pending>, e: Execution) {
    && e.approval < |pending|
    && var item := pending[e.approval];
       && item.decision == Consumed && item.grant.Some?
       && e.operation == item.operation
       && e.monotonic < item.grant.value.expiresMonotonic
       && e.wall < item.grant.value.expiresWall
       && e.head == item.operation.head
  }

  ghost predicate Inv(s: State) {
    && (forall id | 0 <= id < |s.pending| :: ItemOk(s, id))
    && (forall id | |s.pending| <= id :: Decisions(s.records, id) == [])
    && TokensDiffer(s.pending)
    && (forall i | 0 <= i < |s.executions| :: ExecutionOk(s.pending, s.executions[i]))
    && (forall i, j | 0 <= i < j < |s.executions| :: s.executions[i].approval != s.executions[j].approval)
  }

  /** `secrets.token_urlsafe` never issues a token twice. */
  predicate IsFresh(s: State, step: Step) {
    step.GrantIt? ==> forall i | 0 <= i < |s.pending| :: !Holds(s.pending[i], step.token)
  }

  lemma RecordsGrow(records: seq<Record>, r: Record, id: nat)
    ensures Decisions(records + [r], id)
            == Decisions(records, id) + if r.approval == Some(id) && r.decision != Rejected then [r.decision] else []
  {
    assert (records + [r])[..|records|] == records;
  }

  lemma AnsweredKeeps(s: State, id: nat, item: Pending)
    requires Inv(s) && id < |s.pending|
    requires item.operation == s.pending[id].operation && item.decision != Rejected
    requires Expected(item.decision) == Expected(s.pending[id].decision) + [item.decision]
    requires item.grant.Some? <==> item.decision == Granted || item.decision == Consumed
    requires s.pending[id].decision != Consumed
    requires item.grant == s.pending[id].grant
             || (item.grant.Some? && forall i | 0 <= i < |s.pending| :: !Holds(s.pending[i], item.grant.value.token))
    ensures Inv(Answered(s, id, item))
  {
    var after := Answered(s, id, item);
    forall k: nat
      ensures Decisions(after.records, k) == Decisions(s.records, k) + if k == id then [item.decision] else []
    {
      RecordsGrow(s.records, Record(item.decision, Some(id), Sha256(item.operation)), k);
    }
    forall k | 0 <= k < |after.pending| ensures ItemOk(after, k) {
      assert ItemOk(s, k);
    }
    forall i | 0 <= i < |after.executions| ensures ExecutionOk(after.pending, after.executions[i]) {
      assert ExecutionOk(s.pending, s.executions[i]);
    }
  }

  lemma RejectedKeeps(s: State, r: Record)
    requires Inv(s) && r.decision == Rejected
    ensures Inv(s.(records := s.records + [r]))
  {
    var after := s.(records := s.records + [r]);
    forall k: nat ensures Decisions(after.records, k) == Decisions(s.records, k) {
      RecordsGrow(s.records, r, k);
    }
    forall k | 0 <= k < |after.pending| ensures ItemOk(after, k) {
      assert ItemOk(s, k);
    }
  }

  lemma RequestKeeps(s: State, operation: Operation)
    requires Inv(s)
    ensures Inv(After(s, Request(operation)))
  {
    var after := After(s, Request(operation));
    forall k: nat
      ensures Decisions(after.records, k) == Decisions(s.records, k) + if k == |s.pending| then [Requested] else []
    {
      RecordsGrow(s.records, Record(Requested, Some(|s.pending|), Sha256(operation)), k);
    }
    forall k | 0 <= k < |after.pending| ensures ItemOk(after, k) {
      if k < |s.pending| { assert ItemOk(s, k); }
    }
    forall i | 0 <= i < |after.executions| ensures ExecutionOk(after.pending, after.executions[i]) {
      assert ExecutionOk(s.pending, s.executions[i]);
    }
  }

  lemma ConsumeKeeps(s: State, token: Token, operation: Operation, arguments: Json, now: Now)
    requires Inv(s)
    ensures var (after, id) := AfterConsume(s, token, operation, now);
            && Inv(after) && after.executions == s.executions
            && (id.Some? ==>
                  && now.head.Some?
                  && ExecutionOk(
                       after.pending,
                       Execution(id.value, operation, arguments, now.monotonic, now.wall, now.head.value))
                  && forall i | 0 <= i < |s.executions| :: s.executions[i].approval != id.value)
  {
    match Find(s.pending, token) {
      case None => RejectedKeeps(s, Record(Rejected, None, Sha256(operation)));
      case Some(id) =>
        var item := s.pending[id];
        if Rejection(item, operation, now).Some? {
          RejectedKeeps(s, Record(Rejected, Some(id), Sha256(item.operation)));
        } else {
          AnsweredKeeps(s, id, item.(decision := Consumed));
          assert forall i | 0 <= i < |s.executions| :: ExecutionOk(s.pending, s.executions[i]);
        }
    }
  }

  lemma ExecutionKeeps(s: State, e: Execution)
    requires Inv(s) && ExecutionOk(s.pending, e)
    requires forall i | 0 <= i < |s.executions| :: s.executions[i].approval != e.approval
    ensures Inv(s.(executions := s.executions + [e]))
  {
    var after := s.(executions := s.executions + [e]);
    forall k | 0 <= k < |after.pending| ensures ItemOk(after, k) {
      assert ItemOk(s, k);
    }
  }

  lemma StepKeeps(s: State, step: Step)
    requires Inv(s) && IsFresh(s, step)
    ensures Inv(After(s, step))
  {
    match step {
      case Request(operation) => RequestKeeps(s, operation);
      case GrantIt(id, _, _, _, _) =>
        if MayGrant(s, step) {
          assert ItemOk(s, id);
          AnsweredKeeps(s, id, s.pending[id].(decision := Granted, grant := Some(GrantOf(step))));
        }
      case Refuse(id, _) =>
        if id < |s.pending| && s.pending[id].decision == Requested {
          assert ItemOk(s, id);
          AnsweredKeeps(s, id, s.pending[id].(decision := Refused));
        }
      case Consume(token, operation, now) => ConsumeKeeps(s, token, operation, Null, now);
      case Write(token, operation, arguments, now, budgetAllows) =>
        ConsumeKeeps(s, token, operation, arguments, now);
        var (after, id) := AfterConsume(s, token, operation, now);
        if id.Some? && budgetAllows {
          ExecutionKeeps(
            after, Execution(id.value, operation, arguments, now.monotonic, now.wall, now.head.value));
        }
    }
  }

  function Run(steps: seq<Step>): State {
    if steps == [] then NOTHING else After(Run(steps[..|steps| - 1]), steps[|steps| - 1])
  }

  predicate AllFresh(steps: seq<Step>) {
    steps == []
    || (AllFresh(steps[..|steps| - 1]) && IsFresh(Run(steps[..|steps| - 1]), steps[|steps| - 1]))
  }

  lemma {:induction false} EveryRunKeeps(steps: seq<Step>)
    requires AllFresh(steps)
    ensures Inv(Run(steps))
  {
    if steps != [] {
      EveryRunKeeps(steps[..|steps| - 1]);
      StepKeeps(Run(steps[..|steps| - 1]), steps[|steps| - 1]);
    }
  }

  /**
   Over any sequence of requests, answers and writes with fresh tokens: each run of a write
   handler belongs to an approval of its own, whose log reads requested, granted, consumed;
   the operation that ran is the one that was granted, at its commit, before either expiry.
   */
  lemma WritesAreApproved(steps: seq<Step>, i: nat, j: nat)
    requires AllFresh(steps) && i < |Run(steps).executions| && j < |Run(steps).executions|
    ensures var s := Run(steps);
            var e := s.executions[i];
            && e.approval < |s.pending|
            && Decisions(s.records, e.approval) == [Requested, Granted, Consumed]
            && e.operation == s.pending[e.approval].operation
            && s.pending[e.approval].grant.Some?
            && e.monotonic < s.pending[e.approval].grant.value.expiresMonotonic
            && e.wall < s.pending[e.approval].grant.value.expiresWall
            && e.head == e.operation.head
            && (s.executions[i].approval == s.executions[j].approval ==> i == j)
  {
    EveryRunKeeps(steps);
    var s := Run(steps);
    assert ExecutionOk(s.pending, s.executions[i]);
    assert ItemOk(s, s.executions[i].approval);
    if i < j || j < i {
      assert s.executions[if i < j then i else j].approval != s.executions[if i < j then j else i].approval;
    }
  }

  /** A held token is spent exactly on its own operation, in time, at the approved commit. */
  lemma SpentExactlyAsGranted(s: State, id: nat, token: Token, operation: Operation, now: Now)
    requires Inv(s) && id < |s.pending| && Holds(s.pending[id], token)
    ensures var item := s.pending[id];
            AfterConsume(s, token, operation, now).1 == Some(id)
            <==> && item.decision == Granted
                 && now.monotonic < item.grant.value.expiresMonotonic
                 && now.wall < item.grant.value.expiresWall
                 && now.head == Some(item.operation.head)
                 && operation == item.operation
  {
    var found := Find(s.pending, token);
    assert ItemOk(s, id);
    assert found == Some(id);
  }

  /** No approval is consumed twice, nor answered twice, whatever is asked of the authority. */
  lemma DecisionsFollow(steps: seq<Step>, id: nat)
    requires AllFresh(steps)
    ensures var d := Decisions(Run(steps).records, id);
            d in {[], [Requested], [Requested, Granted], [Requested, Refused], [Requested, Granted, Consumed]}
  {
    EveryRunKeeps(steps);
    var s := Run(steps);
    if id < |s.pending| {
      assert ItemOk(s, id);
    }
  }

  // ------------------------------------------------------------- the authority

  class ApprovalAuthority {
    var pending: seq<Pending>
    var records: seq<Record>
    /** The write handlers that have run, kept by the gateway that runs them. */
    ghost var executions: seq<Execution>

    constructor ()
      ensures Snapshot() == NOTHING
    {
      pending, records, executions := [], [], [];
    }

    ghost function Snapshot(): State
      reads this
    {
      State(pending, records, executions)
    }

    method RequestIt(operation: Operation) returns (id: nat)
      modifies this
      ensures id == |old(pending)|
      ensures Snapshot() == After(old(Snapshot()), Request(operation))
    {
      id := |pending|;
      pending := pending + [Pending(operation, Requested, None)];
      records := records + [Record(Requested, Some(id), Sha256(operation))];
    }

    method Open(id: nat) returns (r: Result<Pending, ApprovalError>)
      ensures r.Ok? <==> id < |pending| && pending[id].decision == Requested
      ensures r.Ok? ==> r.value == pending[id]
    {
      if id >= |pending| {
        return Err(NoSuchRequest);
      }
      if pending[id].decision != Requested {
        return Err(AlreadyAnswered);
      }
      return Ok(pending[id]);
    }

    method GrantRequest(id: nat, giver: string, ttl: real, token: Token, now: Now)
        returns (r: Result<Token, ApprovalError>)
      modifies this
      ensures Snapshot() == After(old(Snapshot()), GrantIt(id, giver, ttl, token, now))
      ensures r.Ok? <==> MayGrant(old(Snapshot()), GrantIt(id, giver, ttl, token, now))
      ensures r.Ok? ==> r.value == token
    {
      if Blank(giver) {
        return Err(BlankName);
      }
      if !(0.0 < ttl <= MAX_TTL_SECONDS) {
        return Err(BadTtl);
      }
      var item :- Open(id);
      var grant := Grant(token, giver, now.monotonic + ttl, now.wall + ttl);
      pending := pending[id := item.(decision := Granted, grant := Some(grant))];
      records := records + [Record(Granted, Some(id), Sha256(item.operation))];
      return Ok(token);
    }

    method RefuseRequest(id: nat, giver: string) returns (r: Result<nat, ApprovalError>)
      modifies this
      ensures Snapshot() == After(old(Snapshot()), Refuse(id, giver))
      ensures r.Ok? <==> id < |old(pending)| && old(pending)[id].decision == Requested
    {
      var item :- Open(id);
      pending := pending[id := item.(decision := Refused)];
      records := records + [Record(Refused, Some(id), Sha256(item.operation))];
      return Ok(id);
    }

    method ConsumeToken(token: Token, operation: Operation, now: Now)
        returns (r: Result<nat, ApprovalError>)
      modifies this
      ensures Snapshot() == After(old(Snapshot()), Consume(token, operation, now))
      ensures r.Ok? <==> AfterConsume(old(Snapshot()), token, operation, now).1.Some?
      ensures r.Ok? ==> AfterConsume(old(Snapshot()), token, operation, now).1 == Some(r.value)
    {
      var found := Find(pending, token);
      if found.None? {
        records := records + [Record(Rejected, None, Sha256(operation))];
        return Err(WriteRejected(UnknownToken));
      }
      var id := found.value;
      var item := pending[id];
      var refused := Rejection(item, operation, now);
      if refused.Some? {
        records := records + [Record(Rejected, Some(id), Sha256(item.operation))];
        return Err(WriteRejected(refused.value));
      }
      pending := pending[id := item.(decision := Consumed)];
      records := records + [Record(Consumed, Some(id), Sha256(item.operation))];
      return Ok(id);
    }

    /** The gateway ran a write handler under a spent approval. */
    ghost method Ran(e: Execution)
      modifies this`executions
      ensures Snapshot() == old(Snapshot()).(executions := old(executions) + [e])
    {
      executions := executions + [e];
    }
  }
}
