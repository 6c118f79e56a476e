/**
 Settling a claim: a claim stated as its own test is decided by re-reading the lines the run
 observed; anything else is recorded and decides nothing.
 */
module ClaimChecks {
  import opened Wrappers
  import opened Lines
  import opened Numerals
  import opened Json
  import opened Observations
  import opened Observers
  import opened Findings

  datatype LiteralKind = HasText | LacksText

  datatype TypedClaim =
    | Literal(kind: LiteralKind, sourceId: SourceId, text: string)
    | TargetsDiffer(
        sourceId: SourceId, other: SourceId, text: string,
        sourceTargets: seq<string>, otherTargets: seq<string>)

  datatype Condition = Condition(present: bool, sourceId: SourceId, text: string)

  datatype ClaimResult =
    | ClaimVerified | ClaimContradicted | ConditionSupported | ConditionRefuted | NotDeclared
    | TextMismatch | UnsupportedKind | SourceNotCited | SourceUnavailable

  predicate IsDecisive(r: ClaimResult) {
    r == ClaimVerified || r == ClaimContradicted
  }

  function IntText(i: int): string {
    if i < 0 then "-" + Decimal(-i) else Decimal(i)
  }

  /** The one sentence a literal claim means. */
  function RenderLiteral(kind: LiteralKind, text: string, path: string, lineStart: int, lineEnd: int): string {
    path + " lines " + IntText(lineStart) + "-" + IntText(lineEnd)
    + (if kind == HasText then " contain " else " do not contain ") + Quote(text)
  }

  function Texts(items: seq<string>): Json {
    Arr(seq(|items|, i requires 0 <= i < |items| => Str(items[i])))
  }

  function RenderTargets(c: TypedClaim, path: string, otherPath: string): string
    requires c.TargetsDiffer?
  {
    "command " + Quote(c.text) + " targets differ: " + path + "="
    + Dump(Texts(c.sourceTargets), Compact, 0) + "; " + otherPath + "="
    + Dump(Texts(c.otherTargets), Compact, 0)
  }

  predicate HoldsFor(kind: LiteralKind, text: string, observed: string) {
    if kind == HasText then Contains(observed, text) else !Contains(observed, text)
  }

  predicate Cites(f: Finding, id: SourceId) {
    exists i | 0 <= i < |f.evidence| :: f.evidence[i].sourceId == id
  }

  /** The observation a claim is about and its lines, re-read; or why nothing is settled. */
  function ObservedText(
      f: Finding, id: SourceId, obs: seq<Observation>, extra: set<SourceType>, reading: Reading)
    : (r: Result<(Observation, string), ClaimResult>)
    ensures r.Err? ==> !IsDecisive(r.error) && r.error in {SourceNotCited, SourceUnavailable, UnsupportedKind}
    ensures r.Ok? ==> reading.Read? && IsHonest(r.value.0, reading.content) && r.value.0 in obs
                      && r.value.0.sourceId == id && r.value.1 == r.value.0.excerpt && Cites(f, id)
  {
    if !Cites(f, id) then Err(SourceNotCited)
    else
      var p := PositionOf(obs, id);
      if p.None? then Err(SourceUnavailable)
      else
        var o := obs[p.value];
        if !CanRead(extra, o.sourceType) then Err(UnsupportedKind)
        else match reading
          case PathRefused => Err(SourceUnavailable)
          case Unreadable => Err(SourceUnavailable)
          case Read(content) =>
            if Sha(content) != o.digest then Err(SourceUnavailable)
            else
              var observed := LinesAt(content, o.lineStart, o.lineEnd);
              if observed != o.excerpt then Err(SourceUnavailable) else Ok((o, observed))
  }

  /** How a quoted command line is taken apart; the two are separate parsers in the source. */
  datatype Tokenizer = Tokenizer(names: (string, string) -> bool, targets: (string, string) -> set<string>)

  /** The quotes of one source that name the command. */
  function Candidates(evidence: seq<Reference>, id: SourceId, command: string, t: Tokenizer): seq<string> {
    if evidence == [] then []
    else
      (if evidence[0].sourceId == id && t.names(evidence[0].quoted, command) then [evidence[0].quoted] else [])
      + Candidates(evidence[1..], id, command, t)
  }

  function CitedTargets(f: Finding, id: SourceId, command: string, t: Tokenizer): Option<set<string>> {
    var quotes := Candidates(f.evidence, id, command, t);
    if |quotes| == 1 then Some(t.targets(quotes[0], command)) else None
  }

  /** Sorted declared targets equal the sorted set: the same targets, none twice. */
  predicate SameTargets(declared: seq<string>, actual: set<string>) {
    multiset(declared) == multiset(actual)
  }

  function CheckTargets(
      f: Finding, c: TypedClaim, obs: seq<Observation>, extra: set<SourceType>, t: Tokenizer,
      reread: nat -> Reading): ClaimResult
    requires c.TargetsDiffer?
  {
    var left := ObservedText(f, c.sourceId, obs, extra, reread(0));
    if left.Err? then left.error
    else
      var right := ObservedText(f, c.other, obs, extra, reread(1));
      if right.Err? then right.error
      else
        var a, b := CitedTargets(f, c.sourceId, c.text, t), CitedTargets(f, c.other, c.text, t);
        if a.None? || b.None? then UnsupportedKind
        else if Strip(f.claim) != RenderTargets(c, left.value.0.path, right.value.0.path) then TextMismatch
        else if SameTargets(c.sourceTargets, a.value) && SameTargets(c.otherTargets, b.value)
                && a.value != b.value
        then ClaimVerified
        else ClaimContradicted
  }

  function CheckTyped(
      f: Finding, c: TypedClaim, obs: seq<Observation>, extra: set<SourceType>, t: Tokenizer,
      reread: nat -> Reading): ClaimResult
  {
    if c.TargetsDiffer? then CheckTargets(f, c, obs, extra, t, reread)
    else
      var found := ObservedText(f, c.sourceId, obs, extra, reread(0));
      if found.Err? then found.error
      else
        var (o, observed) := found.value;
        if Strip(f.claim) != RenderLiteral(c.kind, c.text, o.path, o.lineStart, o.lineEnd) then TextMismatch
        else if HoldsFor(c.kind, c.text, observed) then ClaimVerified
        else ClaimContradicted
  }

  function CheckCondition(
      f: Finding, condition: Option<Condition>, obs: seq<Observation>, extra: set<SourceType>,
      reread: nat -> Reading): ClaimResult
  {
    if condition.None? then NotDeclared
    else
      var c := condition.value;
      var found := ObservedText(f, c.sourceId, obs, extra, reread(0));
      if found.Err? then found.error
      else if Contains(found.value.1, c.text) == c.present then ConditionSupported
      else ConditionRefuted
  }

  function CheckClaim(
      f: Finding, typed: Option<TypedClaim>, condition: Option<Condition>, obs: seq<Observation>,
      extra: set<SourceType>, t: Tokenizer, reread: nat -> Reading): ClaimResult
  {
    if typed.Some? then CheckTyped(f, typed.value, obs, extra, t, reread)
    else CheckCondition(f, condition, obs, extra, reread)
  }

  /** The only place a finding's verdict leaves `Insufficient`. */
  function ApplyVerdict(statuses: Statuses, result: ClaimResult): Verdict {
    if AreSound(statuses) && result == ClaimVerified then Verified
    else if AreSound(statuses) && result == ClaimContradicted then Contradicted
    else Insufficient
  }

  // ------------------------------------------------------ what a settled claim means

  /** A literal claim that is true of lines as they are in the source, and says so in these words. */
  predicate TrueOf(f: Finding, c: TypedClaim, o: Observation) {
    && c.Literal? && o.sourceId == c.sourceId && Honest(o)
    && Strip(f.claim) == RenderLiteral(c.kind, c.text, o.path, o.lineStart, o.lineEnd)
    && HoldsFor(c.kind, c.text, o.excerpt)
  }

  /** Both target sets were read off the one cited command line of each source, and differ. */
  predicate TargetsTrueOf(f: Finding, c: TypedClaim, t: Tokenizer, left: Observation, right: Observation) {
    && c.TargetsDiffer? && left.sourceId == c.sourceId && right.sourceId == c.other
    && Honest(left) && Honest(right)
    && Strip(f.claim) == RenderTargets(c, left.path, right.path)
    && var a, b := CitedTargets(f, c.sourceId, c.text, t), CitedTargets(f, c.other, c.text, t);
       a.Some? && b.Some? && a.value != b.value
       && SameTargets(c.sourceTargets, a.value) && SameTargets(c.otherTargets, b.value)
  }

  ghost predicate Settled(f: Finding, c: TypedClaim, obs: seq<Observation>, t: Tokenizer) {
    (exists i | 0 <= i < |obs| :: TrueOf(f, c, obs[i]))
    || exists i, j | 0 <= i < |obs| && 0 <= j < |obs| :: TargetsTrueOf(f, c, t, obs[i], obs[j])
  }

  /** Only a typed claim is ever decided, and it is verified only when it is true. */
  lemma VerifiedMeansTrue(
      f: Finding, typed: Option<TypedClaim>, condition: Option<Condition>, obs: seq<Observation>,
      extra: set<SourceType>, t: Tokenizer, reread: nat -> Reading)
    requires CheckClaim(f, typed, condition, obs, extra, t, reread) == ClaimVerified
    ensures typed.Some? && Settled(f, typed.value, obs, t)
  {
    var c := typed.value;
    var left := ObservedText(f, c.sourceId, obs, extra, reread(0)).value.0;
    var i :| 0 <= i < |obs| && obs[i] == left;
    if c.TargetsDiffer? {
      var right := ObservedText(f, c.other, obs, extra, reread(1)).value.0;
      var j :| 0 <= j < |obs| && obs[j] == right;
      assert TargetsTrueOf(f, c, t, obs[i], obs[j]);
    } else {
      assert TrueOf(f, c, obs[i]);
    }
  }
}
