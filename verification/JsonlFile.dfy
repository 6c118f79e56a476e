/**
 The durable log file: one JSON object per line, appended, read back after a crash.

 A write either completes or the process dies leaving a prefix of the line. The reader
 drops an unfinished last line and raises on anything else that does not parse; the sink
 drops the unfinished line before it appends.
 */
module JsonlFile {
  import opened Wrappers
  import opened Lines
  import opened Json
  import opened JsonText

  datatype ReadError = CorruptLine(line: string)
  datatype SinkError = TornLogTail

  /** What a log holds: an object, printed as JSON. */
  predicate IsRecord(v: Json) { v.Obj? && WellFormed(v) }

  predicate AreRecords(rs: seq<Json>) {
    forall i | 0 <= i < |rs| :: IsRecord(rs[i])
  }

  predicate AreClean(rs: seq<Json>) {
    forall i | 0 <= i < |rs| :: Clean(rs[i])
  }

  function Line(record: Json): string {
    Dump(record, Compact, 0) + "\n"
  }

  function Cat(lines: seq<string>): string {
    if lines == [] then "" else lines[0] + Cat(lines[1..])
  }

  function LinesOf(rs: seq<Json>): (lines: seq<string>)
    ensures |lines| == |rs| && forall i | 0 <= i < |rs| :: lines[i] == Line(rs[i])
  {
    seq(|rs|, i requires 0 <= i < |rs| => Line(rs[i]))
  }

  function Written(rs: seq<Json>): string {
    Cat(LinesOf(rs))
  }

  lemma WrittenStep(rs: seq<Json>)
    requires rs != []
    ensures Written(rs) == Line(rs[0]) + Written(rs[1..])
  {
    assert LinesOf(rs)[1..] == LinesOf(rs[1..]);
  }

  // ------------------------------------------------------------------ reading

  predicate EndsWithNewline(s: string) { s != "" && s[|s| - 1] == '\n' }

  function Decode(pieces: seq<string>): Result<seq<Json>, ReadError> {
    if pieces == [] then Ok([])
    else if !EndsWithNewline(pieces[0]) && |pieces| == 1 then Ok([])
    else if Blank(pieces[0]) then Decode(pieces[1..])
    else
      match Loads(pieces[0])
      case None => Err(CorruptLine(pieces[0]))
      case Some(record) => Before([record], Decode(pieces[1..]))
  }

  function Before(rs: seq<Json>, more: Result<seq<Json>, ReadError>): Result<seq<Json>, ReadError> {
    if more.Ok? then Ok(rs + more.value) else more
  }

  lemma BeforeNothing(r: Result<seq<Json>, ReadError>)
    ensures Before([], r) == r
  {
    if r.Ok? { assert [] + r.value == r.value; }
  }

  lemma BeforeBoth(a: seq<Json>, b: seq<Json>, r: Result<seq<Json>, ReadError>)
    ensures Before(a, Before(b, r)) == Before(a + b, r)
  {
    if r.Ok? { assert a + (b + r.value) == (a + b) + r.value; }
  }

  function Read(text: string): Result<seq<Json>, ReadError> {
    Decode(SplitKeep(text))
  }

  method ReadJsonl(text: string) returns (r: Result<seq<Json>, ReadError>)
    ensures r == Read(text)
  {
    var records: seq<Json> := [];
    var lines := SplitKeep(text);
    var index := 0;
    BeforeNothing(Read(text));
    assert lines[0..] == lines;
    while index < |lines|
      invariant index <= |lines|
      invariant Read(text) == Before(records, Decode(lines[index..]))
    {
      var line := lines[index];
      assert lines[index..][0] == line && lines[index..][1..] == lines[index + 1..];
      if !EndsWithNewline(line) && index == |lines| - 1 {
        break;
      }
      if !Blank(line) {
        var record := Loads(line);
        if record.None? {
          return Err(CorruptLine(line));
        }
        BeforeBoth(records, [record.value], Decode(lines[index + 1..]));
        records := records + [record.value];
      }
      index := index + 1;
    }
    assert records + [] == records;
    r := Ok(records);
  }

  lemma FirstLine(d: string, rest: string)
    requires NoBreak(d)
    ensures SplitKeep(d + "\n" + rest) == [d + "\n"] + SplitKeep(rest)
  {
    var text := d + "\n" + rest;
    assert text == d + ("\n" + rest);
    BreakAtFirst(d, "\n" + rest);
    assert text[..|d| + 1] == d + "\n" && text[|d| + 1..] == rest;
  }

  lemma LoadsLine(record: Json)
    requires IsRecord(record)
    ensures Loads(Line(record)) == Some(record)
    ensures EndsWithNewline(Line(record)) && !Blank(Line(record))
  {
    ReadsValue(record, Compact, 0, "\n");
    SkipsWs("\n", "");
    assert "\n" + "" == "\n";
    assert Dump(record, Compact, 0)[0] == '{';
    assert Line(record)[0] == '{';
  }

  /** One whole line in front of a file: its record, then whatever the rest reads as. */
  lemma ReadsWholeLine(record: Json, rest: string)
    requires IsRecord(record) && Clean(record)
    ensures Read(Line(record) + rest) == Before([record], Read(rest))
  {
    var line := Line(record);
    DumpPrinted(record, 0);
    FirstLine(Dump(record, Compact, 0), rest);
    LoadsLine(record);
    var pieces := [line] + SplitKeep(rest);
    assert SplitKeep(line + rest) == pieces;
    assert pieces[0] == line && pieces[1..] == SplitKeep(rest);
  }

  /** An unfinished last line was never a record. */
  lemma ReadsNothingTorn(fragment: string)
    requires NoBreak(fragment)
    ensures Read(fragment) == Ok([])
  {
    if fragment != "" {
      BreakAtFirst(fragment, "");
      assert fragment + "" == fragment;
    }
  }

  lemma {:induction false} ReadsWritten(rs: seq<Json>, rest: string)
    requires AreRecords(rs) && AreClean(rs)
    ensures Read(Written(rs) + rest) == Before(rs, Read(rest))
  {
    if rs == [] {
      assert Written(rs) + rest == rest;
      BeforeNothing(Read(rest));
    } else {
      WrittenStep(rs);
      assert Written(rs) + rest == Line(rs[0]) + (Written(rs[1..]) + rest);
      ReadsWholeLine(rs[0], Written(rs[1..]) + rest);
      ReadsWritten(rs[1..], rest);
      BeforeBoth([rs[0]], rs[1..], Read(rest));
      assert [rs[0]] + rs[1..] == rs;
    }
  }

  // --------------------------------------------------------------- torn writes

  /** How many of the lines lie wholly within the first `k` characters. */
  function WholeLines(lines: seq<string>, k: nat): (n: nat)
    ensures n <= |lines|
  {
    if lines == [] || k < |lines[0]| then 0 else 1 + WholeLines(lines[1..], k - |lines[0]|)
  }

  /** What a cut leaves of the line it falls in. */
  function Remnant(lines: seq<string>, k: nat): string
    requires k <= |Cat(lines)|
  {
    if lines == [] then ""
    else if k < |lines[0]| then lines[0][..k]
    else Remnant(lines[1..], k - |lines[0]|)
  }

  function Whole(rs: seq<Json>, k: nat): (n: nat)
    ensures n <= |rs|
  {
    WholeLines(LinesOf(rs), k)
  }

  function Fragment(rs: seq<Json>, k: nat): string
    requires k <= |Written(rs)|
  {
    Remnant(LinesOf(rs), k)
  }

  lemma PrefixOfBoth(a: string, b: string, k: nat)
    requires k <= |b|
    ensures (a + b)[..|a| + k] == a + b[..k]
  {
  }

  lemma CatCons(line: string, rest: seq<string>)
    ensures Cat([line] + rest) == line + Cat(rest)
  {
    assert ([line] + rest)[1..] == rest;
  }

  lemma CutLater(line: string, rest: seq<string>, k: nat, n: nat, remnant: string)
    requires k <= |Cat(rest)| && n <= |rest|
    requires Cat(rest)[..k] == Cat(rest[..n]) + remnant
    ensures var all := [line] + rest;
            |line| + k <= |Cat(all)| && Cat(all)[..|line| + k] == Cat(all[..1 + n]) + remnant
  {
    var all := [line] + rest;
    CatCons(line, rest);
    CatCons(line, rest[..n]);
    PrefixOfBoth(line, Cat(rest), k);
    assert all[..1 + n] == [line] + rest[..n];
    assert line + (Cat(rest[..n]) + remnant) == line + Cat(rest[..n]) + remnant;
  }

  lemma {:induction false} CutOfLines(lines: seq<string>, k: nat)
    requires k <= |Cat(lines)|
    ensures Cat(lines)[..k] == Cat(lines[..WholeLines(lines, k)]) + Remnant(lines, k)
    ensures k == |Cat(lines)| && (forall i | 0 <= i < |lines| :: lines[i] != "") ==> WholeLines(lines, k) == |lines|
  {
    if lines != [] {
      var line, rest := lines[0], lines[1..];
      assert lines == [line] + rest;
      CatCons(line, rest);
      if k < |line| {
        assert lines[..0] == [];
        assert (line + Cat(rest))[..k] == line[..k];
      } else {
        CutOfLines(rest, k - |line|);
        CutLater(line, rest, k - |line|, WholeLines(rest, k - |line|), Remnant(rest, k - |line|));
      }
    }
  }

  /** A line that breaks at its end and nowhere else. */
  predicate IsLine(line: string) {
    EndsWithNewline(line) && NoBreak(line[..|line| - 1])
  }

  lemma {:induction false} RemnantHasNoBreak(lines: seq<string>, k: nat)
    requires k <= |Cat(lines)| && forall i | 0 <= i < |lines| :: IsLine(lines[i])
    ensures NoBreak(Remnant(lines, k))
  {
    if lines != [] {
      if k < |lines[0]| {
        var body := lines[0][..|lines[0]| - 1];
        assert forall i | 0 <= i < k :: lines[0][..k][i] == body[i];
      } else {
        RemnantHasNoBreak(lines[1..], k - |lines[0]|);
      }
    }
  }

  lemma RecordIsLine(record: Json)
    requires IsRecord(record) && Clean(record)
    ensures IsLine(Line(record))
  {
    DumpPrinted(record, 0);
    var d := Dump(record, Compact, 0);
    assert Line(record)[..|d|] == d;
  }

  lemma CutShape(rs: seq<Json>, k: nat)
    requires k <= |Written(rs)| && AreRecords(rs) && AreClean(rs)
    ensures Written(rs)[..k] == Written(rs[..Whole(rs, k)]) + Fragment(rs, k)
    ensures NoBreak(Fragment(rs, k))
    ensures k == |Written(rs)| ==> Whole(rs, k) == |rs|
  {
    var lines := LinesOf(rs);
    forall i | 0 <= i < |lines| ensures IsLine(lines[i]) { RecordIsLine(rs[i]); }
    CutOfLines(lines, k);
    RemnantHasNoBreak(lines, k);
    assert lines[..Whole(rs, k)] == LinesOf(rs[..Whole(rs, k)]);
  }

  /** Any cut of a log reads as a prefix of its records: exactly the lines it holds whole. */
  lemma CutReads(rs: seq<Json>, k: nat)
    requires k <= |Written(rs)| && AreRecords(rs) && AreClean(rs)
    ensures Read(Written(rs)[..k]) == Ok(rs[..Whole(rs, k)])
  {
    CutShape(rs, k);
    var n := Whole(rs, k);
    ReadsNothingTorn(Fragment(rs, k));
    ReadsWritten(rs[..n], Fragment(rs, k));
    assert rs[..n] + [] == rs[..n];
  }

  lemma {:induction false} CatBoth(a: seq<string>, b: seq<string>)
    ensures Cat(a + b) == Cat(a) + Cat(b)
  {
    if a == [] {
      assert a + b == b;
    } else {
      assert (a + b)[1..] == a[1..] + b;
      CatBoth(a[1..], b);
    }
  }

  lemma WrittenBoth(rs: seq<Json>, more: seq<Json>)
    ensures Written(rs + more) == Written(rs) + Written(more)
  {
    CatBoth(LinesOf(rs), LinesOf(more));
    assert LinesOf(rs + more) == LinesOf(rs) + LinesOf(more);
  }

  lemma {:induction false} CatEnds(lines: seq<string>)
    requires forall i | 0 <= i < |lines| :: EndsWithNewline(lines[i])
    ensures Cat(lines) == "" || EndsWithNewline(Cat(lines))
  {
    if lines != [] {
      CatEnds(lines[1..]);
      if Cat(lines[1..]) == "" { assert Cat(lines) == lines[0]; }
    }
  }

  lemma WrittenEnds(rs: seq<Json>)
    ensures Written(rs) == "" || EndsWithNewline(Written(rs))
  {
    CatEnds(LinesOf(rs));
  }

  /** What is left once the characters after the last newline are dropped. */
  predicate IsTruncated(text: string, kept: string) {
    |kept| <= |text| && text[..|kept|] == kept
    && (kept == "" || EndsWithNewline(kept))
    && forall i | |kept| <= i < |text| :: text[i] != '\n'
  }

  lemma TruncatedUnique(text: string, a: string, b: string)
    requires IsTruncated(text, a) && IsTruncated(text, b)
    ensures a == b
  {
    assert a != "" ==> a[|a| - 1] == text[|a| - 1];
    assert b != "" ==> b[|b| - 1] == text[|b| - 1];
  }

  /**
   Recovery after a torn write. Whatever the cut, dropping the torn tail leaves exactly
   the whole records: reading is unchanged by it, and records appended afterwards follow
   them with nothing in between.
   */
  lemma Recovery(rs: seq<Json>, k: nat, kept: string, more: seq<Json>)
    requires k <= |Written(rs)| && AreRecords(rs + more) && AreClean(rs + more)
    requires IsTruncated(Written(rs)[..k], kept)
    ensures AreRecords(rs) && AreClean(rs)
    ensures kept == Written(rs[..Whole(rs, k)])
    ensures Read(kept) == Read(Written(rs)[..k])
    ensures Read(kept + Written(more)) == Ok(rs[..Whole(rs, k)] + more)
  {
    assert forall i | 0 <= i < |rs| :: rs[i] == (rs + more)[i];
    assert forall i | 0 <= i < |more| :: more[i] == (rs + more)[|rs| + i];
    var n := Whole(rs, k);
    KeptIsWhole(rs, k, kept);
    CutReads(rs, k);
    ReadsAll(rs[..n]);
    WrittenBoth(rs[..n], more);
    ReadsAll(rs[..n] + more);
  }

  lemma ReadsAll(rs: seq<Json>)
    requires AreRecords(rs) && AreClean(rs)
    ensures Read(Written(rs)) == Ok(rs)
  {
    ReadsWritten(rs, "");
    assert Written(rs) + "" == Written(rs) && rs + [] == rs;
  }

  lemma KeptIsWhole(rs: seq<Json>, k: nat, kept: string)
    requires k <= |Written(rs)| && AreRecords(rs) && AreClean(rs)
    requires IsTruncated(Written(rs)[..k], kept)
    ensures kept == Written(rs[..Whole(rs, k)])
  {
    var whole := Written(rs[..Whole(rs, k)]);
    CutShape(rs, k);
    WrittenEnds(rs[..Whole(rs, k)]);
    TruncatesTo(whole, Fragment(rs, k));
    TruncatedUnique(Written(rs)[..k], kept, whole);
  }

  lemma TruncatesTo(whole: string, fragment: string)
    requires whole == "" || EndsWithNewline(whole)
    requires NoBreak(fragment)
    ensures IsTruncated(whole + fragment, whole)
  {
    var text := whole + fragment;
    assert forall i | |whole| <= i < |text| :: text[i] == fragment[i - |whole|];
  }

  // ------------------------------------------------ when a log reads back at all

  /** A piece that ends at its only break is the first piece read. */
  lemma FirstPiece(piece: string, tail: string)
    requires piece != "" && NoBreak(piece[..|piece| - 1])
    requires RawBreak(piece[|piece| - 1])
    ensures SplitKeep(piece + tail) == [piece] + SplitKeep(tail)
  {
    var b := |piece| - 1;
    var text := piece + tail;
    assert text == piece[..b] + ([piece[b]] + tail);
    BreakAtFirst(piece[..b], [piece[b]] + tail);
    assert text[..b + 1] == piece && text[b + 1..] == tail;
  }

  lemma DirtyPieceIsCorrupt(piece: string, more: seq<string>)
    requires piece != "" && piece[0] == '{' && Loads(piece) == None && more != []
    ensures Decode([piece] + more).Err?
  {
    var pieces := [piece] + more;
    assert pieces[0] == piece;
  }

  /** Where a record with a raw break in it is cut by the reader. */
  lemma DirtyPiece(record: Json) returns (piece: string, left: string)
    requires IsRecord(record) && !Clean(record)
    ensures Dump(record, Compact, 0) == piece + left && left != ""
    ensures piece != "" && piece[0] == '{' && Loads(piece) == None
    ensures NoBreak(piece[..|piece| - 1]) && RawBreak(piece[|piece| - 1])
  {
    DumpPrinted(record, 0);
    RecordEnds(record.fields);
    piece, left := CutAtBreak(Dump(record, Compact, 0));
    assert piece[0] == (piece + left)[0];
    NoPartIsARecord(record.fields, Compact, piece, left);
  }

  lemma RecordEnds(fields: seq<Field>)
    ensures var d := Dump(Obj(fields), Compact, 0);
            |d| >= 2 && d[0] == '{' && d[|d| - 1] == '}'
  {
  }

  lemma CutAtBreak(d: string) returns (piece: string, left: string)
    requires Printable(d) && !NoBreak(d) && d[|d| - 1] == '}'
    ensures d == piece + left && piece != "" && left != ""
    ensures NoBreak(piece[..|piece| - 1]) && RawBreak(piece[|piece| - 1])
  {
    var b := BreakAt(d);
    assert d[..|d|] == d;
    piece, left := d[..b + 1], d[b + 1..];
    assert piece[..|piece| - 1] == d[..b];
  }

  /** A raw U+0085, U+2028 or U+2029 splits its own line, and the pieces are not JSON. */
  lemma ReadsDirtyLine(record: Json, rest: string)
    requires IsRecord(record) && !Clean(record)
    ensures Read(Line(record) + rest).Err?
  {
    var piece, left := DirtyPiece(record);
    var tail := left + "\n" + rest;
    assert Line(record) + rest == piece + tail;
    FirstPiece(piece, tail);
    DirtyPieceIsCorrupt(piece, SplitKeep(tail));
  }

  /** A log reads back as what was written exactly when no string in it holds such a break. */
  lemma {:induction false} ReadsBackExactly(rs: seq<Json>)
    requires AreRecords(rs)
    ensures Read(Written(rs)) == Ok(rs) <==> AreClean(rs)
    ensures Read(Written(rs)).Err? <==> !AreClean(rs)
  {
    if rs != [] {
      WrittenStep(rs);
      ReadsBackExactly(rs[1..]);
      if Clean(rs[0]) {
        ReadsWholeLine(rs[0], Written(rs[1..]));
        assert rs == [rs[0]] + rs[1..];
      } else {
        ReadsDirtyLine(rs[0], Written(rs[1..]));
      }
    }
  }

  /** The concrete case: one record whose text holds U+2028. */
  lemma LineSeparatorBreaksTheLog()
    ensures var record := Obj([Field("detail", Str("a\U{2028}b"))]);
            IsRecord(record) && Read(Written([record])).Err?
  {
    var record := Obj([Field("detail", Str("a\U{2028}b"))]);
    var text := "a\U{2028}b";
    assert text[1] == '\U{2028}';
    assert !CleanText(text);
    assert !Clean(record.fields[0].value);
    assert !Clean(record);
    ReadsBackExactly([record]);
  }

  // ---------------------------------------------------------------- the sink

  class JsonlSink {
    var content: string

    constructor (content: string)
      ensures this.content == content
    {
      this.content := content;
    }

    /** Run when the sink is built: a file that ends mid-record is refused or cut back. */
    method CheckTail(truncate: bool) returns (r: Outcome<SinkError>)
      modifies this
      ensures r.Raised? <==> !truncate && old(content) != "" && !EndsWithNewline(old(content))
      ensures r.Raised? ==> content == old(content)
      ensures r.Returned? ==> IsTruncated(old(content), content)
    {
      if content == "" || EndsWithNewline(content) {
        return Returned;
      }
      if !truncate {
        return Raised(TornLogTail);
      }
      var keep := |content|;
      while keep > 0 && content[keep - 1] != '\n'
        invariant 0 <= keep <= |content| && content == old(content)
        invariant forall i | keep <= i < |content| :: content[i] != '\n'
      {
        keep := keep - 1;
      }
      content := content[..keep];
      return Returned;
    }

    method Write(record: Json)
      modifies this
      ensures content == old(content) + Line(record)
    {
      content := content + Line(record);
    }

    /** The process dies during a write: some prefix of the line is in the file. */
    method DieWriting(record: Json, written: nat)
      requires written <= |Line(record)|
      modifies this
      ensures content == old(content) + Line(record)[..written]
    {
      content := content + Line(record)[..written];
    }
  }

  /**
   One crash and one recovery, end to end. A log of `rs` loses its last write, is opened
   with `truncate_torn_tail`, and is appended to: it then reads as the records that were
   whole, followed by the new one.
   */
  method CrashRecoverAppend(rs: seq<Json>, last: Json, written: nat, next: Json)
      returns (r: Result<seq<Json>, ReadError>)
    requires AreRecords(rs + [last] + [next]) && AreClean(rs + [last] + [next])
    requires written <= |Line(last)|
    ensures r == Ok((if written == |Line(last)| then rs + [last] else rs) + [next])
  {
    var sink := new JsonlSink(Written(rs));
    sink.DieWriting(last, written);
    var checked := sink.CheckTail(true);
    RecoveredReads(rs, last, written, next, sink.content);
    sink.Write(next);
    r := ReadJsonl(sink.content);
  }

  lemma Recovered(all: seq<Json>, k: nat, next: Json, text: string, kept: string)
    requires AreRecords(all + [next]) && AreClean(all + [next])
    requires k <= |Written(all)| && text == Written(all)[..k] && IsTruncated(text, kept)
    ensures Read(kept + Line(next)) == Ok(all[..Whole(all, k)] + [next])
  {
    Recovery(all, k, kept, [next]);
    WrittenOne([], next);
    assert [] + [next] == [next] && "" + Line(next) == Line(next);
  }

  lemma CutInLast(rs: seq<Json>, last: Json, written: nat)
    requires written <= |Line(last)|
    ensures |Written(rs)| + written <= |Written(rs + [last])|
    ensures Written(rs) + Line(last)[..written] == Written(rs + [last])[..|Written(rs)| + written]
  {
    WrittenOne(rs, last);
    PrefixOfBoth(Written(rs), Line(last), written);
  }

  lemma RecoveredReads(rs: seq<Json>, last: Json, written: nat, next: Json, kept: string)
    requires AreRecords(rs + [last] + [next]) && AreClean(rs + [last] + [next])
    requires written <= |Line(last)|
    requires IsTruncated(Written(rs) + Line(last)[..written], kept)
    ensures Read(kept + Line(next))
            == Ok((if written == |Line(last)| then rs + [last] else rs) + [next])
  {
    var all, k, text := rs + [last], |Written(rs)| + written, Written(rs) + Line(last)[..written];
    CutInLast(rs, last, written);
    Recovered(all, k, next, text, kept);
    KeptRecords(rs, last, written);
  }

  lemma KeptRecords(rs: seq<Json>, last: Json, written: nat)
    requires written <= |Line(last)|
    ensures (rs + [last])[..Whole(rs + [last], |Written(rs)| + written)]
            == if written == |Line(last)| then rs + [last] else rs
  {
    WholeBut(rs, last, written);
    var all := rs + [last];
    assert all[..|rs|] == rs && all[..|rs| + 1] == all;
  }

  lemma WrittenOne(rs: seq<Json>, last: Json)
    ensures Written(rs + [last]) == Written(rs) + Line(last)
  {
    WrittenBoth(rs, [last]);
    assert LinesOf([last]) == [Line(last)] + [];
    CatCons(Line(last), []);
    assert Line(last) + "" == Line(last);
  }

  lemma {:induction false} WholeLinesBut(lines: seq<string>, last: string, written: nat)
    requires written <= |last| && last != ""
    ensures WholeLines(lines + [last], |Cat(lines)| + written) == |lines| + if written == |last| then 1 else 0
  {
    var all := lines + [last];
    if lines == [] {
      assert all == [last] && all[1..] == [];
    } else {
      assert all[0] == lines[0] && all[1..] == lines[1..] + [last];
      WholeLinesBut(lines[1..], last, written);
    }
  }

  lemma WholeBut(rs: seq<Json>, last: Json, written: nat)
    requires written <= |Line(last)|
    ensures Whole(rs + [last], |Written(rs)| + written) == |rs| + if written == |Line(last)| then 1 else 0
  {
    WholeLinesBut(LinesOf(rs), Line(last), written);
    assert LinesOf(rs + [last]) == LinesOf(rs) + [Line(last)];
  }
}
