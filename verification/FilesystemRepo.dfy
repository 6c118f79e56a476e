/**
 The host's reader for one local checkout: windows first, every name once, so many files a
 round, each read reserved on the run's budget. A file may change between any two came.

 A name is asked for once, but what is read and recorded is the file it leads to, and two
 names may lead to one file. What that does to a round is said at the end.
 */
module FilesystemRepos {
  import opened Wrappers
  import opened Chains
  import opened Lines
  import opened Budget
  import opened Observations
  import opened Snapshots
  import opened Observers

  const EXACT_PATTERN_MAX_LINES: nat := 200

  const CANDIDATE_FILES := [
    "README.md", "pyproject.toml", "package.json", "docs/architecture.md", "docs/CONTEXT_CONTRACT.md",
    "docs/TOKEN_BUDGET.md", "docs/context-export-contract.md", "docs/memory-model.md",
    "docs/roadmap-token-reduction.md", ".github/workflows/test.yml", ".github/workflows/run-atlas.yml"]

  /**
   The checkout as it answers: which names lead to files inside it, to which file, links
   followed, and what a pattern matches.
   */
  datatype Checkout = Checkout(
    present: string -> bool, resolve: string -> string, matching: string -> seq<string>, extended: set<string>)

  datatype Request = Request(
    snapshotId: string, windows: seq<LineWindow>, paths: seq<string>, patterns: seq<string>)

  datatype Wanted = Wanted(path: string, window: Option<LineWindow>)

  datatype ReadError = OutOfBudget(budgetError: BudgetError) | Gone | BadRange

  /** Reading one file now: its content, refused or too large or gone, in any case skipped. */
  datatype Attempt = Content(content: string) | Skipped

  predicate IsExact(pattern: string) {
    forall i | 0 <= i < |pattern| :: pattern[i] !in {'*', '?', '[', ']'}
  }

  function Heads(lists: seq<seq<string>>): seq<string> {
    if lists == [] then []
    else Heads(lists[..|lists| - 1]) + if lists[|lists| - 1] != [] then [lists[|lists| - 1][0]] else []
  }

  function Tails(lists: seq<seq<string>>): (r: seq<seq<string>>)
    ensures |r| == |lists|
  {
    seq(|lists|, i requires 0 <= i < |lists| => if lists[i] == [] then [] else lists[i][1..])
  }

  function Longest(lists: seq<seq<string>>): (n: nat)
    ensures forall i | 0 <= i < |lists| :: |lists[i]| <= n
  {
    if lists == [] then 0
    else
      var n := Longest(lists[..|lists| - 1]);
      if |lists[|lists| - 1]| > n then |lists[|lists| - 1]| else n
  }

  /** Every pattern gets a read before any gets a second. */
  function TakeTurns(lists: seq<seq<string>>, rounds: nat): seq<string>
    decreases rounds
  {
    if rounds == 0 then [] else Heads(lists) + TakeTurns(Tails(lists), rounds - 1)
  }

  function ByPattern(c: Checkout, r: Request): seq<seq<string>> {
    if r.paths == [] && r.patterns == [] && r.windows == [] then [Filter(CANDIDATE_FILES, c.present)]
    else seq(|r.patterns|, i requires 0 <= i < |r.patterns| => Filter(c.matching(r.patterns[i]), c.present))
  }

  function WindowWants(c: Checkout, windows: seq<LineWindow>): seq<Wanted> {
    if windows == [] then []
    else
      var w := windows[|windows| - 1];
      WindowWants(c, windows[..|windows| - 1]) + if c.present(w.path) then [Wanted(w.path, Some(w))] else []
  }

  predicate HasWindow(c: Checkout, windows: seq<LineWindow>, path: string) {
    exists i | 0 <= i < |windows| :: windows[i].path == path && c.present(path)
  }

  function Plain(paths: seq<string>): (r: seq<Wanted>)
    ensures |r| == |paths|
  {
    seq(|paths|, i requires 0 <= i < |paths| => Wanted(paths[i], None))
  }

  /** Everything a request may be answered with, in the order it is tried. */
  function WantedBy(c: Checkout, r: Request): seq<Wanted> {
    var lists := ByPattern(c, r);
    WindowWants(c, r.windows)
    + Plain(Filter(r.paths, (p: string) => !HasWindow(c, r.windows, p) && c.present(p)))
    + Plain(TakeTurns(lists, Longest(lists)))
  }

  /** How much of a file an ordinary read takes: more for the few paths a plan names exactly. */
  function MaxLines(c: Checkout, r: Request, path: string): nat {
    if path in c.extended
       && exists i | 0 <= i < |r.patterns| ::
            IsExact(r.patterns[i]) && path in Filter(c.matching(r.patterns[i]), c.present)
    then EXACT_PATTERN_MAX_LINES else DEFAULT_MAX_LINES
  }

  /** What reading one wanted name came to: its window, or its head, of the file it leads to. */
  ghost predicate IsAnswer(c: Checkout, r: Request, want: Wanted, o: Observation) {
    && o.path == c.resolve(want.path) && o.sourceType == LocalFile && o.snapshotId == r.snapshotId
    && Observations.Valid(o)
    && exists content :: CollectedFrom(o, content) && IsAnswerTo(c, r, want, o, content)
  }

  predicate IsAnswerTo(c: Checkout, r: Request, want: Wanted, o: Observation, content: string) {
    CollectWanted(c, r, want, content) == Ok(o) || (want.window.Some? && CollectHead(c, r, want, content) == Ok(o))
  }

  /** The first attempt at a name: the window that was asked for, or the head. */
  function CollectWanted(c: Checkout, r: Request, want: Wanted, content: string): Result<Observation, CollectError> {
    var file := c.resolve(want.path);
    match want.window
    case Some(w) => Collect(r.snapshotId, file, content, w.maxLines, w.lineStart, w.anchor)
    case None => Collect(r.snapshotId, file, content, MaxLines(c, r, want.path), 1, None)
  }

  /** What a window that cannot be served falls back to. */
  function CollectHead(c: Checkout, r: Request, want: Wanted, content: string): Result<Observation, CollectError> {
    Collect(r.snapshotId, c.resolve(want.path), content, DEFAULT_MAX_LINES, 1, None)
  }

  lemma CollectedHere(
      o: Observation, content: string, snapshotId: string, path: string, maxLines: int, lineStart: int,
      anchor: Option<string>)
    requires Collect(snapshotId, path, content, maxLines, lineStart, anchor) == Ok(o)
    ensures CollectedFrom(o, content) && Observations.Valid(o) && o.sourceType == LocalFile
    ensures o.path == path && o.snapshotId == snapshotId
  {
    assert CollectedFrom(o, content);
    CollectedIs(o, content);
  }

  /** The two reads one name may cost, as they came back. */
  datatype Reads = Reads(first: Attempt, again: Attempt)

  /** What one name is answered with, when its reads come back like this. */
  function Taken(c: Checkout, r: Request, want: Wanted, came: Reads): Result<Option<Observation>, ReadError> {
    if came.first.Skipped? then Ok(None)
    else
      var wanted := CollectWanted(c, r, want, came.first.content);
      if wanted.Ok? then Ok(Some(wanted.value))
      else if want.window.None? then Err(BadRange)
      else if came.again.Skipped? then Err(Gone)
      else
        var head := CollectHead(c, r, want, came.again.content);
        if head.Ok? then Ok(Some(head.value)) else Err(BadRange)
  }

  lemma TakenIsAnswer(c: Checkout, r: Request, want: Wanted, came: Reads)
    requires Taken(c, r, want, came).Ok? && Taken(c, r, want, came).value.Some?
    ensures IsAnswer(c, r, want, Taken(c, r, want, came).value.value)
  {
    var o := Taken(c, r, want, came).value.value;
    var file := c.resolve(want.path);
    if CollectWanted(c, r, want, came.first.content) == Ok(o) {
      match want.window {
        case Some(w) =>
          CollectedHere(o, came.first.content, r.snapshotId, file, w.maxLines, w.lineStart, w.anchor);
        case None =>
          CollectedHere(o, came.first.content, r.snapshotId, file, MaxLines(c, r, want.path), 1, None);
      }
      assert IsAnswerTo(c, r, want, o, came.first.content);
    } else {
      CollectedHere(o, came.again.content, r.snapshotId, file, DEFAULT_MAX_LINES, 1, None);
      assert IsAnswerTo(c, r, want, o, came.again.content);
    }
  }

  /** The first thing wanted under a name: a window, when one was asked for. */
  predicate IsFirst(wanted: seq<Wanted>, k: nat) {
    k < |wanted| && forall j | 0 <= j < k :: wanted[j].path != wanted[k].path
  }

  /** A round whose reads all come back like this; the budget aside, nothing else decides it. */
  function Served(c: Checkout, r: Request, most: nat, wanted: seq<Wanted>, came: seq<Reads>)
    : Result<seq<Observation>, ReadError>
    requires |came| == |wanted|
  {
    if wanted == [] then Ok([])
    else
      var n := |wanted| - 1;
      var obs :- Served(c, r, most, wanted[..n], came[..n]);
      if !IsFirst(wanted, n) || |obs| >= most then Ok(obs)
      else
        var answer :- Taken(c, r, wanted[n], came[n]);
        Ok(if answer.Some? then obs + [answer.value] else obs)
  }

  /** Answers to the first thing wanted under so many names, in their order. */
  ghost predicate AreAnswers(c: Checkout, r: Request, wanted: seq<Wanted>, places: seq<nat>, obs: seq<Observation>) {
    && |places| == |obs|
    && (forall i, j | 0 <= i < j < |places| :: places[i] < places[j])
    && forall i | 0 <= i < |obs| :: IsFirst(wanted, places[i]) && IsAnswer(c, r, wanted[places[i]], obs[i])
  }

  ghost predicate IsRound(c: Checkout, r: Request, wanted: seq<Wanted>, obs: seq<Observation>) {
    exists places :: AreAnswers(c, r, wanted, places, obs)
  }

  lemma FirstStays(wanted: seq<Wanted>, n: nat, k: nat)
    requires k < n <= |wanted|
    ensures IsFirst(wanted[..n], k) <==> IsFirst(wanted, k)
  {
    assert forall j | 0 <= j <= k :: wanted[..n][j] == wanted[j];
  }

  lemma AnswersStay(
      c: Checkout, r: Request, wanted: seq<Wanted>, n: nat, places: seq<nat>, obs: seq<Observation>)
    requires n <= |wanted| && AreAnswers(c, r, wanted[..n], places, obs)
    ensures AreAnswers(c, r, wanted, places, obs)
  {
    forall i | 0 <= i < |obs| ensures IsFirst(wanted, places[i]) && IsAnswer(c, r, wanted[places[i]], obs[i]) {
      FirstStays(wanted, n, places[i]);
      assert wanted[..n][places[i]] == wanted[places[i]];
    }
  }

  lemma OneMoreAnswer(
      c: Checkout, r: Request, wanted: seq<Wanted>, n: nat, places: seq<nat>, obs: seq<Observation>, o: Observation)
    requires AreAnswers(c, r, wanted, places, obs) && IsFirst(wanted, n) && IsAnswer(c, r, wanted[n], o)
    requires forall i | 0 <= i < |places| :: places[i] < n
    ensures AreAnswers(c, r, wanted, places + [n], obs + [o])
  {
    var more, all := places + [n], obs + [o];
    forall i | 0 <= i < |all| ensures IsFirst(wanted, more[i]) && IsAnswer(c, r, wanted[more[i]], all[i]) {
      if i < |obs| {
        assert more[i] == places[i] && all[i] == obs[i];
      } else {
        assert more[i] == n && all[i] == o;
      }
    }
  }

  lemma {:induction false} RoundAnswers(c: Checkout, r: Request, most: nat, wanted: seq<Wanted>, came: seq<Reads>)
      returns (places: seq<nat>)
    requires |came| == |wanted| && Served(c, r, most, wanted, came).Ok?
    ensures AreAnswers(c, r, wanted, places, Served(c, r, most, wanted, came).value)
    ensures |places| <= most
  {
    if wanted == [] {
      places := [];
    } else {
      var n := |wanted| - 1;
      places := RoundAnswers(c, r, most, wanted[..n], came[..n]);
      var obs := Served(c, r, most, wanted[..n], came[..n]).value;
      assert forall i | 0 <= i < |places| :: IsFirst(wanted[..n], places[i]);
      AnswersStay(c, r, wanted, n, places, obs);
      if IsFirst(wanted, n) && |obs| < most && Taken(c, r, wanted[n], came[n]).value.Some? {
        TakenIsAnswer(c, r, wanted[n], came[n]);
        OneMoreAnswer(c, r, wanted, n, places, obs, Taken(c, r, wanted[n], came[n]).value.value);
        places := places + [n];
      }
    }
  }

  /** What the round holds once the first `n` places have been served. */
  ghost predicate ServedTo(
      c: Checkout, r: Request, most: nat, wanted: seq<Wanted>, came: seq<Reads>, n: nat, obs: seq<Observation>)
  {
    n <= |wanted| == |came| && Served(c, r, most, wanted[..n], came[..n]) == Ok(obs)
  }

  lemma ServedAll(
      c: Checkout, r: Request, most: nat, wanted: seq<Wanted>, came: seq<Reads>, obs: seq<Observation>)
    requires ServedTo(c, r, most, wanted, came, |wanted|, obs)
    ensures Served(c, r, most, wanted, came) == Ok(obs)
  {
    assert wanted[..|wanted|] == wanted && came[..|wanted|] == came;
  }

  lemma FullStep(
      c: Checkout, r: Request, most: nat, wanted: seq<Wanted>, came: seq<Reads>, n: nat, obs: seq<Observation>)
    requires ServedTo(c, r, most, wanted, came, n, obs) && n < |wanted| && |obs| >= most
    ensures ServedTo(c, r, most, wanted, came, n + 1, obs)
  {
    assert wanted[..n + 1][..n] == wanted[..n] && came[..n + 1][..n] == came[..n];
  }

  /** A round that is full stays as it is, whatever else is wanted. */
  lemma {:induction false} FullStays(
      c: Checkout, r: Request, most: nat, wanted: seq<Wanted>, came: seq<Reads>, m: nat, obs: seq<Observation>)
    requires ServedTo(c, r, most, wanted, came, m, obs) && |obs| >= most
    ensures Served(c, r, most, wanted, came) == Ok(obs)
    decreases |wanted| - m
  {
    if m == |wanted| {
      ServedAll(c, r, most, wanted, came, obs);
    } else {
      FullStep(c, r, most, wanted, came, m, obs);
      FullStays(c, r, most, wanted, came, m + 1, obs);
    }
  }

  class FilesystemRepoObserver {
    const checkout: Checkout
    const maxFilesPerRound: nat

    constructor (checkout: Checkout, maxFilesPerRound: nat)
      requires maxFilesPerRound >= 1
      ensures this.checkout == checkout && this.maxFilesPerRound == maxFilesPerRound
    {
      this.checkout, this.maxFilesPerRound := checkout, maxFilesPerRound;
    }

    /** One name read; a window that cannot be served falls back to the head. */
    method ReadOne(r: Request, want: Wanted) returns (a: Result<Option<Observation>, ReadError>, ghost came: Reads)
      ensures a == Taken(checkout, r, want, came)
    {
      var attempt: Attempt := *;
      came := Reads(attempt, Skipped);
      match attempt {
        case Skipped => return Ok(None), came;
        case Content(content) =>
          var first := CollectWanted(checkout, r, want, content);
          if first.Ok? {
            return Ok(Some(first.value)), came;
          }
      }
      if want.window.None? {
        return Err(BadRange), came;
      }
      attempt := *;
      came := Reads(came.first, attempt);
      match attempt {
        case Skipped => return Err(Gone), came;
        case Content(content) =>
          var again := CollectHead(checkout, r, want, content);
          return if again.Ok? then Ok(Some(again.value)) else Err(BadRange), came;
      }
    }

    /**
     One round. It never answers with more files than its bound, each was reserved on the
     budget, and it answers names in their order, the first thing wanted of each, all from one
     snapshot. Whether the run can merge it is another matter: `RoundsMergeIff` says when.
     */
    method Observe(r: Request, budget: RunBudget)
        returns (a: Result<seq<Observation>, ReadError>, ghost came: seq<Reads>)
      requires budget.Valid()
      modifies budget`toolCalls
      ensures budget.Valid() && budget.toolCalls >= old(budget.toolCalls)
      ensures a.Ok? ==> |a.value| <= maxFilesPerRound && |a.value| <= budget.toolCalls - old(budget.toolCalls)
      ensures a.Ok? ==> |came| == |WantedBy(checkout, r)|
                        && a == Served(checkout, r, maxFilesPerRound, WantedBy(checkout, r), came)
      ensures a.Ok? ==> IsRound(checkout, r, WantedBy(checkout, r), a.value)
      ensures a.Ok? ==> OneSnapshot(r.snapshotId, a.value)
    {
      var wanted := WantedBy(checkout, r);
      a, came := Answer(r, wanted, budget);
      if a.Ok? {
        ghost var places := RoundAnswers(checkout, r, maxFilesPerRound, wanted, came);
      }
    }

    method Answer(r: Request, wanted: seq<Wanted>, budget: RunBudget)
        returns (a: Result<seq<Observation>, ReadError>, ghost came: seq<Reads>)
      requires budget.Valid()
      modifies budget`toolCalls
      ensures budget.Valid() && budget.toolCalls >= old(budget.toolCalls)
      ensures a.Ok? ==> |a.value| <= maxFilesPerRound && |a.value| <= budget.toolCalls - old(budget.toolCalls)
      ensures a.Ok? ==> |came| == |wanted| && a == Served(checkout, r, maxFilesPerRound, wanted, came)
    {
      var obs: seq<Observation> := [];
      var seen: set<string> := {};
      came := [];
      for k := 0 to |wanted|
        invariant budget.Valid() && |obs| <= maxFilesPerRound
        invariant 0 <= |obs| <= budget.toolCalls - old(budget.toolCalls)
        invariant seen == set j | 0 <= j < k :: wanted[j].path
        invariant |came| == k && Served(checkout, r, maxFilesPerRound, wanted[..k], came) == Ok(obs)
      {
        var want := wanted[k];
        assert IsFirst(wanted, k) <==> want.path !in seen;
        if want.path in seen {
          OneMore(r, wanted, k, came, Reads(Skipped, Skipped), obs);
          came := came + [Reads(Skipped, Skipped)];
          continue;
        }
        seen := seen + {want.path};
        if |obs| >= maxFilesPerRound {
          came := Padded(r, wanted, k, came, obs);
          return Ok(obs), came;
        }
        var answer;
        ghost var these;
        answer, these := TryOne(r, want, budget);
        if answer.Err? {
          return Err(answer.error), came;
        }
        OneMore(r, wanted, k, came, these, obs);
        came := came + [these];
        if answer.value.Some? {
          obs := obs + [answer.value.value];
        }
      }
      assert wanted[..|wanted|] == wanted;
      return Ok(obs), came;
    }

    /** The round a step on. */
    lemma OneMore(r: Request, wanted: seq<Wanted>, k: nat, came: seq<Reads>, next: Reads, obs: seq<Observation>)
      requires k < |wanted| && |came| == k
      requires Served(checkout, r, maxFilesPerRound, wanted[..k], came) == Ok(obs)
      ensures var after := Served(checkout, r, maxFilesPerRound, wanted[..k + 1], came + [next]);
              if !IsFirst(wanted, k) || |obs| >= maxFilesPerRound then after == Ok(obs)
              else match Taken(checkout, r, wanted[k], next)
                   case Err(error) => after == Err(error)
                   case Ok(None) => after == Ok(obs)
                   case Ok(Some(o)) => after == Ok(obs + [o])
    {
      assert wanted[..k + 1][..k] == wanted[..k] && (came + [next])[..k] == came;
      FirstStays(wanted, k + 1, k);
    }

    /** Nothing is read once the round is full. */
    lemma Padded(r: Request, wanted: seq<Wanted>, k: nat, came: seq<Reads>, obs: seq<Observation>)
        returns (all: seq<Reads>)
      requires k <= |wanted| && |came| == k && |obs| >= maxFilesPerRound
      requires Served(checkout, r, maxFilesPerRound, wanted[..k], came) == Ok(obs)
      ensures |all| == |wanted| && Served(checkout, r, maxFilesPerRound, wanted, all) == Ok(obs)
    {
      all := came + seq(|wanted| - k, _ => Reads(Skipped, Skipped));
      assert all[..k] == came;
      FullStays(checkout, r, maxFilesPerRound, wanted, all, k, obs);
    }

    method TryOne(r: Request, want: Wanted, budget: RunBudget)
        returns (a: Result<Option<Observation>, ReadError>, ghost came: Reads)
      requires budget.Valid()
      modifies budget`toolCalls
      ensures budget.Valid() && budget.toolCalls >= old(budget.toolCalls)
      ensures a.Ok? ==> budget.toolCalls == old(budget.toolCalls) + 1
      ensures a.Ok? ==> a == Taken(checkout, r, want, came)
    {
      came := Reads(Skipped, Skipped);
      var reserved := Reserve(budget);
      if reserved.Raised? {
        return Err(OutOfBudget(reserved.error)), came;
      }
      a, came := ReadOne(r, want);
      if a.Ok? && a.value.Some? {
        var checked := budget.Check();
        if checked.Raised? {
          return Err(OutOfBudget(checked.error)), came;
        }
      }
    }

    method Reserve(budget: RunBudget) returns (r: Outcome<BudgetError>)
      requires budget.Valid()
      modifies budget`toolCalls
      ensures budget.Valid()
      ensures budget.toolCalls == old(budget.toolCalls) + if r.Returned? then 1 else 0
    {
      var checked := budget.Check();
      if checked.Raised? {
        return checked;
      }
      r := budget.ReserveTool();
    }
  }

  /** The one content a whole round fails on: a file that is a single empty line has no excerpt. */
  lemma HeadIsReadIff(snapshotId: string, path: string, content: string, maxLines: nat)
    requires !Blank(path) && KnownOrUnknown(snapshotId) && maxLines >= 2
    ensures Collect(snapshotId, path, content, maxLines, 1, None).Ok? <==> SplitLines(content) != [""]
  {
    CollectSucceedsIff(snapshotId, path, content, maxLines, 1);
  }

  // ------------------------------------------- when the run's merge accepts a round

  /** Two names lead to one file, and one that an observation can name. */
  predicate SameFile(c: Checkout, a: string, b: string) {
    c.resolve(a) == c.resolve(b) && !Blank(c.resolve(a))
  }

  /** Of the names a round is asked for, no two lead to one file. */
  predicate NoAliases(c: Checkout, wanted: seq<Wanted>) {
    forall j, k | 0 <= j < k < |wanted| && IsFirst(wanted, j) && IsFirst(wanted, k) ::
      !SameFile(c, wanted[j].path, wanted[k].path)
  }

  /** A round this request can be answered with, for some way its reads come back. */
  ghost predicate IsPossible(c: Checkout, r: Request, most: nat, obs: seq<Observation>) {
    exists came ::
      |came| == |WantedBy(c, r)| && Served(c, r, most, WantedBy(c, r), came) == Ok(obs)
  }

  lemma AnswerNames(c: Checkout, r: Request, want: Wanted, o: Observation)
    requires IsAnswer(c, r, want, o)
    ensures o.sourceId == Derived(r.snapshotId, LocalFile, c.resolve(want.path)) && !Blank(c.resolve(want.path))
  {
    ValidMeans(o);
  }

  lemma AnswersDiffer(c: Checkout, r: Request, wanted: seq<Wanted>, obs: seq<Observation>)
    requires IsRound(c, r, wanted, obs) && NoAliases(c, wanted)
    ensures UniqueIds(obs)
  {
    var places :| AreAnswers(c, r, wanted, places, obs);
    forall i, j | 0 <= i < j < |obs| ensures obs[i].sourceId != obs[j].sourceId {
      AnswerNames(c, r, wanted[places[i]], obs[i]);
      AnswerNames(c, r, wanted[places[j]], obs[j]);
      assert places[i] < places[j] && IsFirst(wanted, places[i]) && IsFirst(wanted, places[j]);
      assert !SameFile(c, wanted[places[i]].path, wanted[places[j]].path);
    }
  }

  lemma PossibleIsBounded(c: Checkout, r: Request, most: nat, obs: seq<Observation>)
    requires IsPossible(c, r, most, obs)
    ensures IsRound(c, r, WantedBy(c, r), obs) && |obs| <= most
  {
    var came :| |came| == |WantedBy(c, r)| && Served(c, r, most, WantedBy(c, r), came) == Ok(obs);
    var places := RoundAnswers(c, r, most, WantedBy(c, r), came);
  }

  // A round of two: every other file is gone when it is read, and these two are not.

  const GONE := Reads(Skipped, Skipped)

  function Readable(text: string): Reads {
    Reads(Content(text), Content(text))
  }

  function OnlyTwo(n: nat, j: nat, k: nat, text: string): (came: seq<Reads>)
    ensures |came| == n
  {
    seq(n, i => if i == j || i == k then Readable(text) else GONE)
  }

  predicate AllGone(came: seq<Reads>, m: nat, n: nat) {
    n <= |came| && forall i | m <= i < n :: came[i] == GONE
  }

  /** A file of one line is always read, whatever was asked of it. */
  lemma OneLineIsTaken(c: Checkout, r: Request, want: Wanted, text: string) returns (o: Observation)
    requires KnownOrUnknown(r.snapshotId) && !Blank(c.resolve(want.path)) && text != "" && SplitLines(text) == [text]
    ensures Taken(c, r, want, Readable(text)) == Ok(Some(o)) && IsAnswer(c, r, want, o)
  {
    CollectSucceedsIff(r.snapshotId, c.resolve(want.path), text, MaxLines(c, r, want.path), 1);
    CollectSucceedsIff(r.snapshotId, c.resolve(want.path), text, DEFAULT_MAX_LINES, 1);
    o := Taken(c, r, want, Readable(text)).value.value;
    TakenIsAnswer(c, r, want, Readable(text));
  }

  lemma GoneStep(
      c: Checkout, r: Request, most: nat, wanted: seq<Wanted>, came: seq<Reads>, n: nat, obs: seq<Observation>)
    requires ServedTo(c, r, most, wanted, came, n, obs) && n < |wanted| && came[n] == GONE
    ensures ServedTo(c, r, most, wanted, came, n + 1, obs)
  {
    assert wanted[..n + 1][..n] == wanted[..n] && came[..n + 1][..n] == came[..n];
  }

  lemma TakenStep(
      c: Checkout, r: Request, most: nat, wanted: seq<Wanted>, came: seq<Reads>, n: nat, obs: seq<Observation>,
      o: Observation)
    requires ServedTo(c, r, most, wanted, came, n, obs) && n < |wanted| && IsFirst(wanted, n) && |obs| < most
    requires Taken(c, r, wanted[n], came[n]) == Ok(Some(o))
    ensures ServedTo(c, r, most, wanted, came, n + 1, obs + [o])
  {
    assert wanted[..n + 1][..n] == wanted[..n] && came[..n + 1][..n] == came[..n];
    FirstStays(wanted, n + 1, n);
  }

  /** From one place to another with every file between gone, nothing is added. */
  lemma {:induction false} GoneBetween(
      c: Checkout, r: Request, most: nat, wanted: seq<Wanted>, came: seq<Reads>, m: nat, n: nat,
      obs: seq<Observation>)
    requires ServedTo(c, r, most, wanted, came, m, obs) && m <= n && AllGone(came, m, n)
    ensures ServedTo(c, r, most, wanted, came, n, obs)
    decreases n - m
  {
    if m < n {
      GoneStep(c, r, most, wanted, came, m, obs);
      GoneBetween(c, r, most, wanted, came, m + 1, n, obs);
    }
  }

  lemma ServedNothing(c: Checkout, r: Request, most: nat, wanted: seq<Wanted>, came: seq<Reads>)
    requires |wanted| == |came|
    ensures ServedTo(c, r, most, wanted, came, 0, [])
  {
  }

  /** Files gone up to a place, that one read, and gone again up to another. */
  lemma OneIsServed(
      c: Checkout, r: Request, most: nat, wanted: seq<Wanted>, came: seq<Reads>, m: nat, j: nat, n: nat,
      obs: seq<Observation>, o: Observation)
    requires ServedTo(c, r, most, wanted, came, m, obs) && m <= j < n <= |wanted| && IsFirst(wanted, j)
    requires |obs| < most && Taken(c, r, wanted[j], came[j]) == Ok(Some(o))
    requires AllGone(came, m, j) && AllGone(came, j + 1, n)
    ensures ServedTo(c, r, most, wanted, came, n, obs + [o])
  {
    GoneBetween(c, r, most, wanted, came, m, j, obs);
    TakenStep(c, r, most, wanted, came, j, obs, o);
    GoneBetween(c, r, most, wanted, came, j + 1, n, obs + [o]);
  }

  lemma TwoAreServed(
      c: Checkout, r: Request, most: nat, wanted: seq<Wanted>, came: seq<Reads>, j: nat, k: nat,
      a: Observation, b: Observation)
    requires |came| == |wanted| && most >= 2 && j < k < |wanted| && IsFirst(wanted, j) && IsFirst(wanted, k)
    requires AllGone(came, 0, j) && AllGone(came, j + 1, k) && AllGone(came, k + 1, |wanted|)
    requires Taken(c, r, wanted[j], came[j]) == Ok(Some(a)) && Taken(c, r, wanted[k], came[k]) == Ok(Some(b))
    ensures Served(c, r, most, wanted, came) == Ok([a] + [b])
  {
    ServedNothing(c, r, most, wanted, came);
    assert [] + [a] == [a];
    OneIsServed(c, r, most, wanted, came, 0, j, k, [], a);
    OneIsServed(c, r, most, wanted, came, k, k, |wanted|, [a], b);
    ServedAll(c, r, most, wanted, came, [a] + [b]);
  }

  lemma OneFileTwice(c: Checkout, r: Request, a: Wanted, b: Wanted, x: Observation, y: Observation)
    requires SameFile(c, a.path, b.path) && IsAnswer(c, r, a, x) && IsAnswer(c, r, b, y)
    ensures !UniqueIds([x] + [y])
  {
    AnswerNames(c, r, a, x);
    AnswerNames(c, r, b, y);
    assert ([x] + [y])[0].sourceId == ([x] + [y])[1].sourceId;
  }

  lemma OnlyTwoAreThere(n: nat, j: nat, k: nat, text: string)
    requires j < k < n
    ensures var came := OnlyTwo(n, j, k, text);
            && came[j] == came[k] == Readable(text)
            && AllGone(came, 0, j) && AllGone(came, j + 1, k) && AllGone(came, k + 1, n)
  {
  }

  /** Two names for one file make a round that holds one source twice. */
  lemma AliasesRepeat(c: Checkout, r: Request, most: nat, wanted: seq<Wanted>, j: nat, k: nat, text: string)
      returns (obs: seq<Observation>)
    requires KnownOrUnknown(r.snapshotId) && most >= 2 && text != "" && SplitLines(text) == [text]
    requires j < k < |wanted| && IsFirst(wanted, j) && IsFirst(wanted, k)
    requires SameFile(c, wanted[j].path, wanted[k].path)
    ensures Served(c, r, most, wanted, OnlyTwo(|wanted|, j, k, text)) == Ok(obs) && !UniqueIds(obs)
  {
    var a := OneLineIsTaken(c, r, wanted[j], text);
    var b := OneLineIsTaken(c, r, wanted[k], text);
    OnlyTwoAreThere(|wanted|, j, k, text);
    TwoAreServed(c, r, most, wanted, OnlyTwo(|wanted|, j, k, text), j, k, a, b);
    OneFileTwice(c, r, wanted[j], wanted[k], a, b);
    obs := [a] + [b];
  }

  lemma SomeLine() returns (text: string)
    ensures text != "" && SplitLines(text) == [text]
  {
    text := "a";
    assert text[0] == 'a' && NoBreak(text);
    SplitOne(text);
  }

  /**
   Every round a request can be answered with is one the merge accepts, exactly when a round
   may hold one file only or no two of the names asked for lead to one file, which can be seen
   before anything is read.
   */
  lemma RoundsMergeIff(c: Checkout, r: Request, most: nat)
    requires KnownOrUnknown(r.snapshotId)
    ensures (forall obs | IsPossible(c, r, most, obs) :: UniqueIds(obs))
            <==> most < 2 || NoAliases(c, WantedBy(c, r))
  {
    var wanted := WantedBy(c, r);
    if most < 2 || NoAliases(c, wanted) {
      forall obs | IsPossible(c, r, most, obs) ensures UniqueIds(obs) {
        PossibleIsBounded(c, r, most, obs);
        if NoAliases(c, wanted) { AnswersDiffer(c, r, wanted, obs); }
      }
    } else {
      var j, k :| 0 <= j < k < |wanted| && IsFirst(wanted, j) && IsFirst(wanted, k)
                  && SameFile(c, wanted[j].path, wanted[k].path);
      var text := SomeLine();
      var obs := AliasesRepeat(c, r, most, wanted, j, k, text);
      assert IsPossible(c, r, most, obs);
    }
  }

  // ------------------------------------------------------------- a link beside its target

  /** A checkout of one file and a link to it, where every pattern matches both names. */
  function Linked(link: string, target: string): Checkout {
    Checkout(name => name == link || name == target, _ => target, _ => [link, target], {})
  }

  function AskedBy(snapshotId: string, pattern: string): Request {
    Request(snapshotId, [], [], [pattern])
  }

  lemma BothAreWanted(link: string, target: string, snapshotId: string, pattern: string)
    ensures WantedBy(Linked(link, target), AskedBy(snapshotId, pattern)) == Plain([link, target])
  {
    var c, r := Linked(link, target), AskedBy(snapshotId, pattern);
    var names := [link, target];
    FilterAll(names, c.present);
    var lists := ByPattern(c, r);
    assert lists == [names];
    assert [names][..0] == [];
    assert Longest(lists) == 2;
    assert Heads(lists) == [link];
    assert Tails(lists) == [[target]];
    assert [[target]][..0] == [];
    assert Heads([[target]]) == [target];
    assert TakeTurns([[target]], 1) == [target] + TakeTurns(Tails([[target]]), 0);
    assert TakeTurns(lists, 2) == [link] + [target];
    assert Filter(r.paths, (p: string) => !HasWindow(c, r.windows, p) && c.present(p)) == [];
  }

  lemma FilterAll(xs: seq<string>, p: string -> bool)
    requires |xs| == 2 && p(xs[0]) && p(xs[1])
    ensures Filter(xs, p) == xs
  {
    assert xs[..1] == [xs[0]] && [xs[0]][..0] == [];
    assert Filter([xs[0]], p) == [xs[0]];
  }

  lemma HeadIsTaken(c: Checkout, r: Request, name: string, text: string, o: Observation)
    requires c.extended == {}
    requires Collect(r.snapshotId, c.resolve(name), text, DEFAULT_MAX_LINES, 1, None) == Ok(o)
    ensures Taken(c, r, Wanted(name, None), Readable(text)) == Ok(Some(o))
  {
  }

  lemma LinkAnswersTwice(
      link: string, target: string, snapshotId: string, pattern: string, most: nat, text: string, o: Observation)
    requires link != target && most >= 2
    requires Collect(snapshotId, target, text, DEFAULT_MAX_LINES, 1, None) == Ok(o)
    ensures IsPossible(Linked(link, target), AskedBy(snapshotId, pattern), most, [o, o])
  {
    var c, r := Linked(link, target), AskedBy(snapshotId, pattern);
    BothAreWanted(link, target, snapshotId, pattern);
    var wanted := Plain([link, target]);
    assert wanted[0] == Wanted(link, None) && wanted[1] == Wanted(target, None);
    HeadIsTaken(c, r, link, text, o);
    HeadIsTaken(c, r, target, text, o);
    OnlyTwoAreThere(2, 0, 1, text);
    TwoAreServed(c, r, most, wanted, OnlyTwo(2, 0, 1, text), 0, 1, o, o);
    assert [o] + [o] == [o, o];
  }

  lemma OneSource(snapshotId: string, o: Observation)
    requires o.snapshotId == snapshotId
    ensures OneSnapshot(snapshotId, [o, o]) && !UniqueIds([o, o])
  {
    assert [o, o][0].sourceId == [o, o][1].sourceId;
  }

  /**
   The file `real.md`, a link `alias.md` to it and a pattern that matches both: what such a
   round can answer with is refused when it is merged, whatever the run held.
   */
  method LinkIsRefused(snapshotId: string, most: nat, existing: seq<Observation>)
      returns (read: Result<Observation, CollectError>, refused: Result<(seq<Observation>, Round), ObservationRefused>)
    requires KnownOrUnknown(snapshotId) && most >= 2 && UniqueIds(existing)
    ensures read.Ok? && read.value.path == "real.md" && refused.Err?
    ensures IsPossible(Linked("alias.md", "real.md"), AskedBy(snapshotId, "*.md"), most, [read.value, read.value])
  {
    var target, text := "real.md", "a";
    assert target[0] == 'r' && !IsSpace('r') && "alias.md"[0] == 'a' && text[0] == 'a' && NoBreak(text);
    SplitOne(text);
    CollectSucceedsIff(snapshotId, target, text, DEFAULT_MAX_LINES, 1);
    read := Collect(snapshotId, target, text, DEFAULT_MAX_LINES, 1, None);
    CollectedHere(read.value, text, snapshotId, target, DEFAULT_MAX_LINES, 1, None);
    LinkAnswersTwice("alias.md", target, snapshotId, "*.md", most, text, read.value);
    OneSource(snapshotId, read.value);
    refused := MergeObservations(snapshotId, existing, [read.value, read.value]);
  }

  /** And so for any round: the run merges it exactly when no source is in it twice. */
  method MergeRound(c: Checkout, r: Request, most: nat, existing: seq<Observation>, obs: seq<Observation>)
      returns (merged: Result<(seq<Observation>, Round), ObservationRefused>)
    requires UniqueIds(existing) && IsPossible(c, r, most, obs)
    ensures merged.Ok? <==> UniqueIds(obs)
    ensures most < 2 || NoAliases(c, WantedBy(c, r)) ==> merged.Ok?
  {
    PossibleIsBounded(c, r, most, obs);
    if NoAliases(c, WantedBy(c, r)) { AnswersDiffer(c, r, WantedBy(c, r), obs); }
    merged := MergeObservations(r.snapshotId, existing, obs);
  }
}
