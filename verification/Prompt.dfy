/**
 The text a producer is shown, inside a bound it is told about: the instruction always
 whole, the observations cut first and dropped last, every cut stated in the text itself.
 */
module Prompts {
  import opened Wrappers
  import opened Lines
  import opened Numerals

  const HEADING := "Observed sources:"

  /** Below this a truncated source is a stub with a notice attached. */
  const MIN_USEFUL_OBSERVATION: nat := 200

  datatype Limits = Limits(promptChars: nat, observationChars: nat)

  /** What the limits refuse to be built from. */
  predicate LimitsOk(l: Limits) {
    1 <= l.observationChars <= l.promptChars
  }

  datatype BoundedPrompt = BoundedPrompt(text: string, truncated: nat, omitted: nat)

  datatype PromptError = InstructionTooLong(needs: nat)

  /** How a cut and an omission are stated; both are longest when everything is missing. */
  datatype Notices = Notices(cut: (nat, nat) -> string, omission: nat -> string)

  ghost predicate NoticesOk(w: Notices) {
    && (forall full, kept | kept <= full :: |w.cut(full, kept)| <= |w.cut(full, 0)|)
    && forall count, all | count <= all :: |w.omission(count)| <= |w.omission(all)|
  }

  function CutNotice(full: nat, kept: nat): string {
    "\n[... " + Decimal(if kept <= full then full - kept else 0) + " of " + Decimal(full)
    + " characters of this source are not shown; anything said about it is about the part above]"
  }

  function OmissionNotice(count: nat): string {
    Decimal(count)
    + " further observed source(s) did not fit in this prompt and are not shown. "
    + "Any conclusion here is about what is above."
  }

  /** A notice is longest when least is kept, so reserving that much is enough. */
  lemma CutNoticeFits(full: nat, kept: nat)
    requires kept <= full
    ensures |CutNotice(full, kept)| <= |CutNotice(full, 0)|
  {
    WidthMonotone(full - kept, full);
  }

  lemma OmissionNoticeFits(count: nat, all: nat)
    requires count <= all
    ensures |OmissionNotice(count)| <= |OmissionNotice(all)|
  {
    WidthMonotone(count, all);
  }

  const NOTICES := Notices(CutNotice, OmissionNotice)

  lemma NoticesAreOk()
    ensures NoticesOk(NOTICES)
  {
    forall full: nat, kept: nat | kept <= full ensures |NOTICES.cut(full, kept)| <= |NOTICES.cut(full, 0)| {
      CutNoticeFits(full, kept);
    }
    forall count: nat, all: nat | count <= all ensures |NOTICES.omission(count)| <= |NOTICES.omission(all)| {
      OmissionNoticeFits(count, all);
    }
  }

  // ------------------------------------------------------------------ arithmetic

  /** What the first `n` parts take when each is followed by a gap of two. */
  function Spent(parts: seq<string>, n: nat): nat
    requires n <= |parts|
  {
    if n == 0 then 0 else Spent(parts, n - 1) + |parts[n - 1]| + 2
  }

  function Total(parts: seq<string>): nat { Spent(parts, |parts|) }

  lemma {:induction false} SpentPrefix(a: seq<string>, b: seq<string>, n: nat)
    requires n <= |a|
    ensures Spent(a + b, n) == Spent(a, n)
  {
    if n > 0 { SpentPrefix(a, b, n - 1); }
  }

  lemma TotalStep(parts: seq<string>, part: string)
    ensures Total(parts + [part]) == Total(parts) + |part| + 2
  {
    SpentPrefix(parts, [part], |parts|);
  }

  lemma {:induction false} TotalAppend(a: seq<string>, b: seq<string>)
    ensures Total(a + b) == Total(a) + Total(b)
  {
    if b == [] {
      assert a + b == a;
    } else {
      var init := b[..|b| - 1];
      assert a + b == (a + init) + [b[|b| - 1]] && b == init + [b[|b| - 1]];
      TotalStep(a + init, b[|b| - 1]);
      TotalStep(init, b[|b| - 1]);
      TotalAppend(a, init);
    }
  }

  lemma {:induction false} JoinLength(parts: seq<string>)
    ensures |Join("\n\n", parts)| == if parts == [] then 0 else Total(parts) - 2
    ensures parts != [] ==> Total(parts) >= 2
  {
    if |parts| == 1 {
      assert parts == [] + [parts[0]];
      TotalStep([], parts[0]);
    } else if |parts| > 1 {
      assert parts == [parts[0]] + parts[1..];
      TotalAppend([parts[0]], parts[1..]);
      assert [parts[0]] == [] + [parts[0]];
      TotalStep([], parts[0]);
      JoinLength(parts[1..]);
    }
  }

  /** Characters the instruction, the heading and the longest omission notice take. */
  function Fixed(w: Notices, head: seq<string>, tail: seq<string>, count: nat): nat {
    |Join("\n\n", head + tail)| + |HEADING| + 4 + OmittedCost(w, count)
  }

  // ------------------------------------------------------------------- selection

  function Min(a: int, b: int): int { if a < b then a else b }

  /** What one observation may take when this much of the prompt is left. */
  function Allowed(l: Limits, room: int): int { Min(l.observationChars, room) }

  /** How much of an observation that is too long is worth keeping. */
  function Usable(w: Notices, observation: string, allowed: int): int {
    allowed - |w.cut(|observation|, 0)|
  }

  predicate DoesNotFit(w: Notices, observation: string, l: Limits, room: int) {
    room <= 0
    || (|observation| > Allowed(l, room) && Usable(w, observation, Allowed(l, room)) < MIN_USEFUL_OBSERVATION)
  }

  /** An observation as shown: whole when it fits, else its beginning and what was cut. */
  predicate IsShownAs(w: Notices, observation: string, shown: string, l: Limits, room: int) {
    !DoesNotFit(w, observation, l, room)
    && var allowed := Allowed(l, room);
       if |observation| <= allowed then shown == observation
       else
         var usable := Usable(w, observation, allowed);
         0 <= usable <= |observation| && shown == observation[..usable] + w.cut(|observation|, usable)
  }

  predicate WasCut(observation: string, l: Limits, room: int) {
    |observation| > Allowed(l, room)
  }

  /** A kept text is its observation, as shown in the room the ones before it leave. */
  predicate ShownAt(w: Notices, observations: seq<string>, kept: seq<string>, l: Limits, room: int, i: nat) {
    i < |kept| && i < |observations| && IsShownAs(w, observations[i], kept[i], l, room - Spent(kept, i))
  }

  predicate AllShown(w: Notices, observations: seq<string>, kept: seq<string>, l: Limits, room: int) {
    forall i | 0 <= i < |kept| :: ShownAt(w, observations, kept, l, room, i)
  }

  /** The longest beginning of the observations that fits. */
  predicate IsSelection(w: Notices, observations: seq<string>, kept: seq<string>, l: Limits, room: int) {
    && |kept| <= |observations| && AllShown(w, observations, kept, l, room)
    && (|kept| < |observations| ==> DoesNotFit(w, observations[|kept|], l, room - Total(kept)))
  }

  /** How many of the first `n` kept texts are cut. */
  function Cuts(observations: seq<string>, kept: seq<string>, l: Limits, room: int, n: nat): nat
    requires n <= |kept| <= |observations|
  {
    if n == 0 then 0
    else Cuts(observations, kept, l, room, n - 1)
         + if WasCut(observations[n - 1], l, room - Spent(kept, n - 1)) then 1 else 0
  }

  lemma KeepOne(w: Notices, observations: seq<string>, kept: seq<string>, shown: string, l: Limits, room: int)
    requires |kept| < |observations| && AllShown(w, observations, kept, l, room)
    requires IsShownAs(w, observations[|kept|], shown, l, room - Total(kept))
    ensures AllShown(w, observations, kept + [shown], l, room)
  {
    var next := kept + [shown];
    forall i | 0 <= i < |next| ensures ShownAt(w, observations, next, l, room, i) {
      SpentPrefix(kept, [shown], i);
      if i < |kept| {
        assert ShownAt(w, observations, kept, l, room, i);
        assert next[i] == kept[i];
      }
    }
  }

  lemma {:induction false} CutsPrefix(
      observations: seq<string>, kept: seq<string>, shown: string, l: Limits, room: int, n: nat)
    requires n <= |kept| < |observations|
    ensures Cuts(observations, kept + [shown], l, room, n) == Cuts(observations, kept, l, room, n)
  {
    if n > 0 {
      CutsPrefix(observations, kept, shown, l, room, n - 1);
      SpentPrefix(kept, [shown], n - 1);
    }
  }

  lemma ShownFits(w: Notices, observation: string, shown: string, l: Limits, room: int)
    requires LimitsOk(l) && NoticesOk(w) && IsShownAs(w, observation, shown, l, room)
    ensures |shown| <= room && |shown| <= l.observationChars
  {
    var allowed := Allowed(l, room);
    if |observation| > allowed {
      assert |w.cut(|observation|, Usable(w, observation, allowed))| <= |w.cut(|observation|, 0)|;
    }
  }

  method ShowOne(w: Notices, observation: string, l: Limits, room: int) returns (shown: Option<string>, cut: bool)
    requires LimitsOk(l) && NoticesOk(w)
    ensures shown.None? <==> DoesNotFit(w, observation, l, room)
    ensures shown.Some? ==> IsShownAs(w, observation, shown.value, l, room) && (cut <==> WasCut(observation, l, room))
  {
    if room <= 0 {
      return None, false;
    }
    var allowed := Min(l.observationChars, room);
    if |observation| > allowed {
      var usable := allowed - |w.cut(|observation|, 0)|;
      if usable < MIN_USEFUL_OBSERVATION {
        return None, false;
      }
      return Some(observation[..usable] + w.cut(|observation|, usable)), true;
    }
    return Some(observation), false;
  }

  method Select(w: Notices, observations: seq<string>, l: Limits, start: nat)
      returns (kept: seq<string>, truncated: nat)
    requires LimitsOk(l) && NoticesOk(w)
    ensures IsSelection(w, observations, kept, l, start)
    ensures truncated == Cuts(observations, kept, l, start, |kept|)
    ensures Total(kept) <= start + 2
  {
    kept, truncated := [], 0;
    var room: int := start;
    for index := 0 to |observations|
      invariant |kept| == index && room == start - Total(kept) && Total(kept) <= start + 2
      invariant AllShown(w, observations, kept, l, start)
      invariant truncated == Cuts(observations, kept, l, start, |kept|)
    {
      var shown, cut := ShowOne(w, observations[index], l, room);
      if shown.None? {
        return;
      }
      ShownFits(w, observations[index], shown.value, l, room);
      KeepOne(w, observations, kept, shown.value, l, start);
      CutsPrefix(observations, kept, shown.value, l, start, |kept|);
      TotalStep(kept, shown.value);
      SpentPrefix(kept, [shown.value], |kept|);
      kept := kept + [shown.value];
      truncated := truncated + if cut then 1 else 0;
      room := room - (|shown.value| + 2);
    }
  }

  function Body(w: Notices, head: seq<string>, kept: seq<string>, omitted: nat, tail: seq<string>): seq<string> {
    head
    + (if kept != [] then [HEADING + "\n" + Join("\n\n", kept)] else [])
    + (if omitted > 0 then [w.omission(omitted)] else [])
    + tail
  }

  lemma One(part: string)
    ensures Total([part]) == |part| + 2
  {
    assert [part] == [] + [part];
    TotalStep([], part);
  }

  lemma FourTotals(a: seq<string>, b: seq<string>, c: seq<string>, d: seq<string>)
    ensures Total(a + b + c + d) == Total(a) + Total(b) + Total(c) + Total(d)
  {
    TotalAppend(a + b + c, d);
    TotalAppend(a + b, c);
    TotalAppend(a, b);
  }

  lemma BlockTotal(kept: seq<string>)
    requires kept != []
    ensures Total([HEADING + "\n" + Join("\n\n", kept)]) == |HEADING| + 1 + Total(kept)
  {
    One(HEADING + "\n" + Join("\n\n", kept));
    JoinLength(kept);
  }

  function KeptCost(kept: seq<string>): nat {
    if kept != [] then |HEADING| + 1 + Total(kept) else 0
  }

  function OmittedCost(w: Notices, omitted: nat): nat {
    if omitted > 0 then |w.omission(omitted)| + 2 else 0
  }

  lemma BodyTotal(w: Notices, head: seq<string>, kept: seq<string>, omitted: nat, tail: seq<string>)
    ensures Total(Body(w, head, kept, omitted, tail))
            == Total(head) + KeptCost(kept) + OmittedCost(w, omitted) + Total(tail)
  {
    FourTotals(
      head,
      if kept != [] then [HEADING + "\n" + Join("\n\n", kept)] else [],
      if omitted > 0 then [w.omission(omitted)] else [], tail);
    if kept != [] { BlockTotal(kept); }
    One(w.omission(omitted));
  }

  /** The arithmetic of the bound: what was reserved is enough for what is said. */
  lemma PromptFits(
      w: Notices, head: seq<string>, kept: seq<string>, omitted: nat, tail: seq<string>, count: nat, limit: nat)
    requires NoticesOk(w) && head != [] && omitted <= count && Fixed(w, head, tail, count) <= limit
    requires Total(kept) <= limit - Fixed(w, head, tail, count) + 2
    ensures |Join("\n\n", Body(w, head, kept, omitted, tail))| <= limit
  {
    JoinLength(Body(w, head, kept, omitted, tail));
    JoinLength(head + tail);
    TotalAppend(head, tail);
    BodyTotal(w, head, kept, omitted, tail);
    ReserveCovers(w, omitted, count);
    assert Fixed(w, head, tail, count) == Total(head) + Total(tail) - 2 + |HEADING| + 4 + OmittedCost(w, count);
  }

  lemma ReserveCovers(w: Notices, omitted: nat, count: nat)
    requires NoticesOk(w) && omitted <= count
    ensures OmittedCost(w, omitted) <= OmittedCost(w, count)
  {
    assert |w.omission(omitted)| <= |w.omission(count)|;
  }

  /** The prompt as the adapter sends it. */
  method BuildPrompt(head: seq<string>, tail: seq<string>, observations: seq<string>, l: Limits)
      returns (r: Result<BoundedPrompt, PromptError>, ghost kept: seq<string>)
    requires head != [] && LimitsOk(l)
    ensures r.Err? <==> Fixed(NOTICES, head, tail, |observations|) > l.promptChars
    ensures r.Ok? ==> |r.value.text| <= l.promptChars
    ensures r.Ok? ==> r.value.text == Join("\n\n", Body(NOTICES, head, kept, r.value.omitted, tail))
    ensures r.Ok? ==>
              var room := l.promptChars - Fixed(NOTICES, head, tail, |observations|);
              && IsSelection(NOTICES, observations, kept, l, room)
              && |kept| + r.value.omitted == |observations|
              && r.value.truncated == Cuts(observations, kept, l, room, |kept|)
  {
    NoticesAreOk();
    r, kept := BuildWorded(NOTICES, head, tail, observations, l);
  }

  /**
   The prompt, or a refusal when the instruction alone cannot be held. Never over the bound;
   what is shown is a beginning of what the run holds, each source whole or cut and saying
   so; and nothing is left out that is not counted, in the text and on the result.
   */
  method BuildWorded(
      w: Notices, head: seq<string>, tail: seq<string>, observations: seq<string>, l: Limits)
      returns (r: Result<BoundedPrompt, PromptError>, ghost kept: seq<string>)
    requires head != [] && LimitsOk(l) && NoticesOk(w)
    ensures r.Err? <==> Fixed(w, head, tail, |observations|) > l.promptChars
    ensures r.Ok? ==> |r.value.text| <= l.promptChars
    ensures r.Ok? ==> r.value.text == Join("\n\n", Body(w, head, kept, r.value.omitted, tail))
    ensures r.Ok? ==>
              var room := l.promptChars - Fixed(w, head, tail, |observations|);
              && IsSelection(w, observations, kept, l, room)
              && |kept| + r.value.omitted == |observations|
              && r.value.truncated == Cuts(observations, kept, l, room, |kept|)
  {
    kept := [];
    var fixed := Fixed(w, head, tail, |observations|);
    if fixed > l.promptChars {
      return Err(InstructionTooLong(fixed)), kept;
    }
    var room := l.promptChars - fixed;
    var shown, truncated := Select(w, observations, l, room);
    kept := shown;
    var omitted := |observations| - |shown|;
    PromptFits(w, head, shown, omitted, tail, |observations|, l.promptChars);
    r := Ok(BoundedPrompt(Join("\n\n", Body(w, head, shown, omitted, tail)), truncated, omitted));
  }

  /** A cut observation never reads as the observation itself. */
  lemma CutIsVisible(w: Notices, observation: string, shown: string, l: Limits, room: int)
    requires LimitsOk(l) && NoticesOk(w) && IsShownAs(w, observation, shown, l, room)
    ensures WasCut(observation, l, room) ==> |shown| <= Allowed(l, room) < |observation| && shown != observation
    ensures !WasCut(observation, l, room) ==> shown == observation
  {
    var allowed := Allowed(l, room);
    if |observation| > allowed {
      assert |w.cut(|observation|, Usable(w, observation, allowed))| <= |w.cut(|observation|, 0)|;
    }
  }

  lemma {:induction false} NoCutsIff(
      w: Notices, observations: seq<string>, kept: seq<string>, l: Limits, room: int, n: nat)
    requires LimitsOk(l) && NoticesOk(w) && n <= |kept| <= |observations| && AllShown(w, observations, kept, l, room)
    ensures Cuts(observations, kept, l, room, n) == 0 <==> forall i | 0 <= i < n :: kept[i] == observations[i]
  {
    if n > 0 {
      NoCutsIff(w, observations, kept, l, room, n - 1);
      assert ShownAt(w, observations, kept, l, room, n - 1);
      CutIsVisible(w, observations[n - 1], kept[n - 1], l, room - Spent(kept, n - 1));
    }
  }

  /** A result that reports no cut and no omission showed every observation whole, and only then. */
  lemma CompleteIff(w: Notices, observations: seq<string>, kept: seq<string>, l: Limits, room: int)
    requires LimitsOk(l) && NoticesOk(w) && IsSelection(w, observations, kept, l, room)
    ensures Cuts(observations, kept, l, room, |kept|) == 0 && |kept| == |observations| <==> kept == observations
  {
    NoCutsIff(w, observations, kept, l, room, |kept|);
  }
}
