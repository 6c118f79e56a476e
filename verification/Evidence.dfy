/** What an output says: the bullets under its findings headings, and the findings it declares. */
module Evidence {
  import opened Wrappers
  import opened Lines
  import opened Findings
  import opened ClaimChecks

  /** One declared finding, with the claim or the test it declared about itself. */
  datatype Entry = Entry(finding: Finding, typed: Option<TypedClaim>, condition: Option<Condition>)

  /** The declared findings; `Malformed` is a block that is there and cannot be used. */
  datatype Parsed = NoBlock | Malformed | Block(entries: seq<Entry>)
  {
    function Entries(): seq<Entry> { if Block? then entries else [] }
  }

  // -------------------------------------------------------------- bullets

  predicate IsHeading(stripped: string) {
    stripped != "" && stripped[0] == '#'
  }

  predicate StartsWithOne(stripped: string, headings: seq<string>) {
    exists i | 0 <= i < |headings| :: headings[i] <= stripped
  }

  /** What one line of an output is, to someone collecting findings. */
  datatype Line = FindingsHeading | OtherHeading | Bullet(text: string) | Prose

  function Classify(line: string, headings: seq<string>): Line {
    var stripped := Strip(line);
    if IsHeading(stripped) then
      if StartsWithOne(stripped, headings) then FindingsHeading else OtherHeading
    else if "- " <= stripped then Bullet(Strip(stripped[2..]))
    else Prose
  }

  function ClassifyAll(lines: seq<string>, headings: seq<string>): (r: seq<Line>)
    ensures |r| == |lines|
  {
    seq(|lines|, i requires 0 <= i < |lines| => Classify(lines[i], headings))
  }

  /** Whether the last heading of these lines, if any, is one that holds findings. */
  predicate Collecting(lines: seq<Line>) {
    lines != []
    && match lines[|lines| - 1]
       case FindingsHeading => true
       case OtherHeading => false
       case _ => Collecting(lines[..|lines| - 1])
  }

  function Bullets(lines: seq<Line>): seq<string> {
    if lines == [] then []
    else
      var init, last := lines[..|lines| - 1], lines[|lines| - 1];
      Bullets(init) + if last.Bullet? && Collecting(init) then [last.text] else []
  }

  function Claimed(output: string, headings: seq<string>): seq<string> {
    Bullets(ClassifyAll(SplitLines(output), headings))
  }

  method CollectBullets(lines: seq<Line>) returns (findings: seq<string>)
    ensures findings == Bullets(lines)
  {
    findings := [];
    var collecting := false;
    for k := 0 to |lines|
      invariant findings == Bullets(lines[..k]) && collecting == Collecting(lines[..k])
    {
      assert lines[..k + 1][..k] == lines[..k];
      match lines[k] {
        case FindingsHeading => collecting := true;
        case OtherHeading => collecting := false;
        case Bullet(text) => if collecting { findings := findings + [text]; }
        case Prose =>
      }
    }
    assert lines[..|lines|] == lines;
  }

  method FindingsIn(output: string, headings: seq<string>) returns (findings: seq<string>)
    ensures findings == Claimed(output, headings)
  {
    findings := CollectBullets(ClassifyAll(SplitLines(output), headings));
  }

  predicate NoHeading(lines: seq<Line>, from: int, to: int)
    requires 0 <= from && to <= |lines|
  {
    forall i | from <= i < to :: !lines[i].FindingsHeading? && !lines[i].OtherHeading?
  }

  /** The nearest heading above line `k` is one of the findings headings. */
  predicate UnderFindings(lines: seq<Line>, k: nat)
    requires k <= |lines|
  {
    exists h | 0 <= h < k :: lines[h].FindingsHeading? && NoHeading(lines, h + 1, k)
  }

  lemma {:induction false} CollectingIff(lines: seq<Line>, k: nat)
    requires k <= |lines|
    ensures Collecting(lines[..k]) <==> UnderFindings(lines, k)
  {
    if k > 0 {
      CollectingIff(lines, k - 1);
      assert lines[..k][..k - 1] == lines[..k - 1];
      if lines[k - 1].FindingsHeading? {
        assert NoHeading(lines, k - 1 + 1, k);
      } else if UnderFindings(lines, k) {
        var h :| 0 <= h < k && lines[h].FindingsHeading? && NoHeading(lines, h + 1, k);
        assert NoHeading(lines, h + 1, k - 1);
      } else if UnderFindings(lines, k - 1) && !lines[k - 1].OtherHeading? {
        var h :| 0 <= h < k - 1 && lines[h].FindingsHeading? && NoHeading(lines, h + 1, k - 1);
        assert NoHeading(lines, h + 1, k);
      }
    }
  }

  /** One of the first `k` lines is this bullet, under a findings heading. */
  predicate IsClaimed(lines: seq<Line>, k: nat, bullet: string)
    requires k <= |lines|
  {
    exists i | 0 <= i < k :: lines[i] == Bullet(bullet) && UnderFindings(lines, i)
  }

  lemma ClaimedStep(lines: seq<Line>, k: nat, bullet: string)
    requires k < |lines|
    ensures IsClaimed(lines, k + 1, bullet)
            <==> IsClaimed(lines, k, bullet) || (lines[k] == Bullet(bullet) && UnderFindings(lines, k))
  {
    if IsClaimed(lines, k + 1, bullet) {
      var i :| 0 <= i < k + 1 && lines[i] == Bullet(bullet) && UnderFindings(lines, i);
      assert i < k || i == k;
    }
  }

  lemma BulletStep(lines: seq<Line>, k: nat, bullet: string)
    requires k < |lines|
    ensures bullet in Bullets(lines[..k + 1])
            <==> bullet in Bullets(lines[..k]) || (lines[k] == Bullet(bullet) && Collecting(lines[..k]))
  {
    assert lines[..k + 1][..k] == lines[..k];
  }

  /**
   What counts as a claim made in prose: exactly the bullets whose nearest heading above is
   one of the findings headings.
   */
  lemma {:induction false} BulletsAreClaims(lines: seq<Line>, k: nat, bullet: string)
    requires k <= |lines|
    ensures bullet in Bullets(lines[..k]) <==> IsClaimed(lines, k, bullet)
  {
    if k > 0 {
      BulletsAreClaims(lines, k - 1, bullet);
      CollectingIff(lines, k - 1);
      BulletStep(lines, k - 1, bullet);
      ClaimedStep(lines, k - 1, bullet);
    }
  }
}
