/** The memory staging file: the line-oriented reader (src/agent_runtime/retrieval.py) against
    the writer of entries (scripts/smoke_staging_review.py).

    A file holds raw characters; `read_text` translates its line ends to newlines. The text form
    of a float is a parameter. */
module Staging {
  import opened Common

  /* ---- characters and lines ---- */

  /** Where str.splitlines ends a line. */
  predicate IsBreak(c: char) {
    || c == '\n' || c == '\r' || c == '\U{000B}' || c == '\U{000C}'
    || c == '\U{001C}' || c == '\U{001D}' || c == '\U{001E}'
    || c == '\U{0085}' || c == '\U{2028}' || c == '\U{2029}'
  }

  /** str.isspace, which str.strip goes by. */
  predicate IsSpace(c: char) {
    || IsBreak(c) || c == ' ' || c == '\t' || c == '\U{001F}' || c == '\U{00A0}' || c == '\U{1680}'
    || '\U{2000}' <= c <= '\U{200A}' || c == '\U{202F}' || c == '\U{205F}' || c == '\U{3000}'
  }

  /** Both by code point. */
  lemma CharactersMean(c: char)
    ensures IsBreak(c) <==> c as int in {0x0A, 0x0B, 0x0C, 0x0D, 0x1C, 0x1D, 0x1E, 0x85, 0x2028, 0x2029}
    ensures IsSpace(c) <==> || 0x09 <= c as int <= 0x0D || 0x1C <= c as int <= 0x20
                            || c as int in {0x85, 0xA0, 0x1680} || 0x2000 <= c as int <= 0x200A
                            || c as int in {0x2028, 0x2029, 0x202F, 0x205F, 0x3000}
  {
  }

  /** What read_text makes of raw characters: a carriage return, with the newline that may
      follow it, becomes one newline. */
  function Translate(raw: string): string {
    if raw == "" then ""
    else
      var front, c := raw[..|raw| - 1], raw[|raw| - 1];
      if c == '\r' then Translate(front) + "\n"
      else if c == '\n' && EndsInReturn(front) then Translate(front)
      else Translate(front) + [c]
  }

  predicate EndsInReturn(t: string) { t != "" && t[|t| - 1] == '\r' }

  /** The ended lines of a text, and the characters after the last line end. */
  datatype Split = Split(lines: seq<string>, rest: string)

  function SplitOf(t: string, isBreak: char -> bool): Split {
    if t == "" then Split([], "")
    else
      var before, c := SplitOf(t[..|t| - 1], isBreak), t[|t| - 1];
      if isBreak(c) then Split(before.lines + [before.rest], "") else before.(rest := before.rest + [c])
  }

  /** str.splitlines, for any choice of line ends; a translated text holds no pair of carriage
      return and newline, which would end one line together. */
  function SplitLines(t: string, isBreak: char -> bool): seq<string> {
    var s := SplitOf(t, isBreak);
    if s.rest == "" then s.lines else s.lines + [s.rest]
  }

  function Lines(t: string): seq<string> { SplitLines(t, IsBreak) }

  function StripLeft(s: string): string {
    if s != "" && IsSpace(s[0]) then StripLeft(s[1..]) else s
  }

  function StripRight(s: string): string {
    if s != "" && IsSpace(s[|s| - 1]) then StripRight(s[..|s| - 1]) else s
  }

  function Strip(s: string): string { StripRight(StripLeft(s)) }

  predicate Unbroken(s: string, isBreak: char -> bool) { forall i :: 0 <= i < |s| ==> !isBreak(s[i]) }

  predicate SingleLine(s: string) { Unbroken(s, IsBreak) }

  predicate Trimmed(s: string) { s != "" && !IsSpace(s[0]) && !IsSpace(s[|s| - 1]) }

  predicate AllSpace(s: string) { forall i :: 0 <= i < |s| ==> IsSpace(s[i]) }

  lemma {:induction false} StripLeftMeans(s: string) returns (head: string)
    ensures AllSpace(head) && s == head + StripLeft(s)
    ensures StripLeft(s) == "" || !IsSpace(StripLeft(s)[0])
  {
    if s != "" && IsSpace(s[0]) {
      head := StripLeftMeans(s[1..]);
      assert s == [s[0]] + s[1..] && StripLeft(s) == StripLeft(s[1..]);
      head := [s[0]] + head;
    } else {
      head := "";
    }
  }

  lemma {:induction false} StripRightMeans(s: string) returns (tail: string)
    ensures AllSpace(tail) && s == StripRight(s) + tail
    ensures StripRight(s) == "" || !IsSpace(StripRight(s)[|StripRight(s)| - 1])
  {
    if s != "" && IsSpace(s[|s| - 1]) {
      tail := StripRightMeans(s[..|s| - 1]);
      tail := tail + [s[|s| - 1]];
    } else {
      tail := "";
    }
  }

  /** Stripping takes blanks off both ends, and all of them. */
  lemma StripMeans(s: string) returns (head: string, tail: string)
    ensures AllSpace(head) && AllSpace(tail) && s == head + Strip(s) + tail
    ensures Strip(s) == "" || Trimmed(Strip(s))
  {
    head := StripLeftMeans(s);
    tail := StripRightMeans(StripLeft(s));
  }

  /* ---- numbers ---- */

  /** A float: a whole number of units, `one` of which make 1.0, or not finite. */
  datatype Float = Finite(units: int) | Infinite(negative: bool) | NotANumber

  /** `render` and `read` are str() and float(); `fallback` is 0.6. */
  datatype Format = Format(render: int -> string, read: string -> Option<Float>, one: nat, fallback: nat)

  /** _safe_confidence: into [0, 1]; min and max let a NaN through as 0. */
  function SafeConfidence(f: Format, raw: string): int {
    match f.read(raw)
    case None => f.fallback
    case Some(Finite(units)) => Max(0, Min(units, f.one))
    case Some(Infinite(negative)) => if negative then 0 else f.one
    case Some(NotANumber) => 0
  }

  /** A confidence that cannot be read is the fallback, and every other one the nearest in [0, 1]. */
  lemma ConfidenceMeans(f: Format, raw: string)
    ensures var c := SafeConfidence(f, raw);
            match f.read(raw)
            case None => c == f.fallback
            case Some(Finite(units)) =>
              && (units < 0 ==> c == 0) && (units > f.one ==> c == f.one) && (0 <= units <= f.one ==> c == units)
            case Some(Infinite(negative)) => c == (if negative then 0 else f.one)
            case Some(NotANumber) => c == 0
  {
  }

  /** A float in [0, 1] is written on one line, trimmed, and read back. */
  ghost predicate Faithful(f: Format) {
    forall c: int :: 0 <= c <= f.one ==>
      SingleLine(f.render(c)) && Trimmed(f.render(c)) && f.read(f.render(c)) == Some(Finite(c))
  }

  /** Such a format exists: writing a number as that many marks, and one more. */
  lemma TallyIsFaithful(one: nat, fallback: nat)
    ensures Faithful(Format((c: int) => seq(Max(0, c) + 1, i => '1'),
                            (s: string) => if s == "" then None else Some(Finite(|s| - 1)), one, fallback))
  {
  }

  /* ---- the reader ---- */

  const HEADER := "## "
  const STATEMENT := "**Statement:** "
  const CONFIDENCE := "**Confidence:** "

  datatype Record = Record(text: string, confidence: int, line: nat)

  /** The reader's loop variables. */
  datatype Scan = Scan(records: seq<Record>, statement: string, confidence: int, entryLine: nat)

  function Flushed(s: Scan): seq<Record> {
    if s.statement != "" then s.records + [Record(s.statement, s.confidence, s.entryLine)] else s.records
  }

  function Step(f: Format, s: Scan, line: string, number: nat): Scan {
    if HEADER <= line then Scan(Flushed(s), "", f.fallback, number)
    else if STATEMENT <= line then
      s.(statement := Strip(line[|STATEMENT|..]), entryLine := if s.entryLine == 0 then number else s.entryLine)
    else if CONFIDENCE <= line then s.(confidence := SafeConfidence(f, Strip(line[|CONFIDENCE|..])))
    else s
  }

  function ScanLines(f: Format, lines: seq<string>): Scan {
    if lines == [] then Scan([], "", f.fallback, 0)
    else Step(f, ScanLines(f, lines[..|lines| - 1]), lines[|lines| - 1], |lines|)
  }

  function ParseLines(f: Format, lines: seq<string>): seq<Record> { Flushed(ScanLines(f, lines)) }

  function LinesOfFile(raw: string): seq<string> { Lines(Translate(raw)) }

  function Parse(f: Format, text: string): seq<Record> { ParseLines(f, LinesOfFile(text)) }

  method SourceAwareRecordsFromStagingFile(f: Format, text: string) returns (records: seq<Record>)
    ensures records == Parse(f, text)
  {
    records := [];
    var currentStatement, currentConfidence: int, currentEntryLine: nat := "", f.fallback, 0;
    var lines := LinesOfFile(text);
    for i := 0 to |lines|
      invariant ScanLines(f, lines[..i]) == Scan(records, currentStatement, currentConfidence, currentEntryLine)
    {
      var line, lineNumber := lines[i], i + 1;
      assert lines[..i + 1][..i] == lines[..i];
      if HEADER <= line {
        if currentStatement != "" {
          records := records + [Record(currentStatement, currentConfidence, currentEntryLine)];
        }
        currentStatement, currentConfidence, currentEntryLine := "", f.fallback, lineNumber;
        continue;
      }
      if STATEMENT <= line {
        currentStatement := Strip(line[|STATEMENT|..]);
        if currentEntryLine == 0 {
          currentEntryLine := lineNumber;
        }
        continue;
      }
      if CONFIDENCE <= line {
        currentConfidence := SafeConfidence(f, Strip(line[|CONFIDENCE|..]));
      }
    }
    assert lines[..|lines|] == lines;
    if currentStatement != "" {
      records := records + [Record(currentStatement, currentConfidence, currentEntryLine)];
    }
  }

  /* ---- the writer ---- */

  datatype Entry = Entry(
    kind: string, scope: string, timestamp: string, statement: string, confidence: int,
    chat: Option<string>, episode: string, claim: Option<string>)

  function Header(e: Entry): string { "## [" + e.kind + "] " + e.scope + " \U{2014} " + e.timestamp }

  function Optional(prefix: string, value: Option<string>): seq<string> {
    if value.Some? then [prefix + value.value] else []
  }

  /** The lines of an entry, the leading blank one included. */
  function EntryLines(f: Format, e: Entry): seq<string> {
    ["", Header(e), STATEMENT + e.statement, CONFIDENCE + f.render(e.confidence)]
    + Optional("**Chat:** ", e.chat) + ["**Trigger episode:** " + e.episode] + Optional("**Original claim:** ", e.claim)
  }

  /** "\n".join(lines) */
  function Joined(lines: seq<string>): string
    requires lines != []
  {
    if |lines| == 1 then lines[0] else Joined(lines[..|lines| - 1]) + "\n" + lines[|lines| - 1]
  }

  function Rendered(f: Format, e: Entry): string { Joined(EntryLines(f, e) + [""]) }

  class StagingFile {
    var text: string

    constructor ()
      ensures text == ""
    {
      text := "";
    }

    method WriteEntry(f: Format, e: Entry)
      modifies this
      ensures text == old(text) + Rendered(f, e)
    {
      var lines := ["", Header(e), STATEMENT + e.statement, CONFIDENCE + f.render(e.confidence)];
      if e.chat.Some? {
        lines := lines + ["**Chat:** " + e.chat.value];
      }
      lines := lines + ["**Trigger episode:** " + e.episode];
      if e.claim.Some? {
        lines := lines + ["**Original claim:** " + e.claim.value];
      }
      assert lines == EntryLines(f, e);
      lines := lines + [""];
      text := text + Joined(lines);
    }
  }

  /** The text that a list of entries appends. */
  function RenderedAll(f: Format, entries: seq<Entry>): string {
    if entries == [] then "" else RenderedAll(f, entries[..|entries| - 1]) + Rendered(f, entries[|entries| - 1])
  }

  function LinesBy(f: Format): Entry -> seq<string> { (e: Entry) => EntryLines(f, e) }

  function AllLines(lines: Entry -> seq<string>, entries: seq<Entry>): seq<string> {
    if entries == [] then [] else AllLines(lines, entries[..|entries| - 1]) + lines(entries[|entries| - 1])
  }

  /** Every field on one line, a trimmed statement that is not empty, a confidence in [0, 1]. */
  ghost predicate Regular(f: Format, e: Entry) {
    && SingleLine(e.kind) && SingleLine(e.scope) && SingleLine(e.timestamp) && SingleLine(e.episode)
    && SingleLine(e.statement) && Trimmed(e.statement)
    && 0 <= e.confidence <= f.one
    && (e.chat.Some? ==> SingleLine(e.chat.value)) && (e.claim.Some? ==> SingleLine(e.claim.value))
  }

  ghost predicate AllRegular(f: Format, entries: seq<Entry>) {
    forall i :: 0 <= i < |entries| ==> Regular(f, entries[i])
  }

  /* ---- splitting what was joined ---- */

  /** Lines that each end in a newline. */
  function Terminated(lines: seq<string>): string {
    if lines == [] then "" else Terminated(lines[..|lines| - 1]) + lines[|lines| - 1] + "\n"
  }

  /** The text is empty or its last line is ended. */
  predicate Ended(t: string, isBreak: char -> bool) { t == "" || isBreak(t[|t| - 1]) }

  /** Splitting distributes over appending to a text whose last line is ended. */
  lemma {:induction false} SplitAppend(a: string, b: string, isBreak: char -> bool)
    requires Ended(a, isBreak)
    ensures SplitOf(a + b, isBreak)
         == Split(SplitOf(a, isBreak).lines + SplitOf(b, isBreak).lines, SplitOf(b, isBreak).rest)
  {
    if b == "" {
      assert a + b == a;
    } else {
      SplitAppend(a, b[..|b| - 1], isBreak);
      assert (a + b)[..|a + b| - 1] == a + b[..|b| - 1];
    }
  }

  lemma SplitLinesAppend(a: string, b: string, isBreak: char -> bool)
    requires Ended(a, isBreak)
    ensures SplitLines(a + b, isBreak) == SplitLines(a, isBreak) + SplitLines(b, isBreak)
  {
    SplitAppend(a, b, isBreak);
    SplitAppend(a, "", isBreak);
    assert a + "" == a;
  }

  lemma {:induction false} SplitUnbroken(line: string, isBreak: char -> bool)
    requires Unbroken(line, isBreak)
    ensures SplitOf(line, isBreak) == Split([], line)
  {
    if line != "" {
      SplitUnbroken(line[..|line| - 1], isBreak);
    }
  }

  /** One more line end. */
  lemma SplitBreak(a: string, c: char, isBreak: char -> bool)
    requires isBreak(c)
    ensures SplitOf(a + [c], isBreak) == Split(SplitOf(a, isBreak).lines + [SplitOf(a, isBreak).rest], "")
  {
    assert (a + [c])[..|a|] == a;
  }

  /** A line end after an unended last line ends it. */
  lemma SplitAfterUnended(a: string, tail: string, isBreak: char -> bool)
    requires !Ended(a, isBreak) && tail != "" && isBreak(tail[0])
    ensures SplitLines(a + tail, isBreak) == SplitLines(a, isBreak) + SplitLines(tail[1..], isBreak)
  {
    SplitBreak(a, tail[0], isBreak);
    SplitLinesAppend(a + [tail[0]], tail[1..], isBreak);
    assert a + [tail[0]] + tail[1..] == a + tail;
  }

  lemma {:induction false} JoinedIsTerminated(lines: seq<string>)
    requires lines != []
    ensures Joined(lines) + "\n" == Terminated(lines) && Joined(lines + [""]) == Terminated(lines)
  {
    var front := lines[..|lines| - 1];
    if |lines| > 1 {
      JoinedIsTerminated(front);
    } else {
      assert Terminated(front) + lines[0] == lines[0];
    }
    assert (lines + [""])[..|lines|] == lines;
  }

  lemma {:induction false} TerminatedAppend(a: seq<string>, b: seq<string>)
    ensures Terminated(a + b) == Terminated(a) + Terminated(b)
  {
    if b == [] {
      assert a + b == a;
    } else {
      var front, last := b[..|b| - 1], b[|b| - 1];
      TerminatedAppend(a, front);
      assert (a + b)[..|a + b| - 1] == a + front;
      Associates(Terminated(a), Terminated(front), last);
      Associates(Terminated(a), Terminated(front) + last, "\n");
    }
  }

  ghost predicate AllUnbroken(lines: seq<string>, isBreak: char -> bool) {
    forall i :: 0 <= i < |lines| ==> Unbroken(lines[i], isBreak)
  }

  /** Splitting recovers terminated lines. */
  lemma {:induction false} SplitTerminated(lines: seq<string>, isBreak: char -> bool)
    requires AllUnbroken(lines, isBreak) && isBreak('\n')
    ensures SplitOf(Terminated(lines), isBreak) == Split(lines, "")
  {
    if lines != [] {
      var front, last := lines[..|lines| - 1], lines[|lines| - 1];
      SplitTerminated(front, isBreak);
      SplitAppend(Terminated(front), last, isBreak);
      SplitUnbroken(last, isBreak);
      SplitBreak(Terminated(front) + last, '\n', isBreak);
      assert lines == front + [last];
    }
  }

  lemma {:induction false} RenderedAllIsTerminated(f: Format, entries: seq<Entry>)
    ensures RenderedAll(f, entries) == Terminated(AllLines(LinesBy(f), entries))
  {
    if entries != [] {
      var front, last := entries[..|entries| - 1], entries[|entries| - 1];
      RenderedAllIsTerminated(f, front);
      JoinedIsTerminated(EntryLines(f, last));
      TerminatedAppend(AllLines(LinesBy(f), front), EntryLines(f, last));
    }
  }

  /* ---- the lines of an entry ---- */

  lemma UnbrokenAppend(a: string, b: string)
    requires SingleLine(a) && SingleLine(b)
    ensures SingleLine(a + b)
  {
  }

  lemma HeaderIsLine(f: Format, e: Entry)
    requires Regular(f, e)
    ensures SingleLine(Header(e))
  {
    UnbrokenAppend("## [", e.kind);
    UnbrokenAppend("## [" + e.kind, "] ");
    UnbrokenAppend("## [" + e.kind + "] ", e.scope);
    UnbrokenAppend("## [" + e.kind + "] " + e.scope, " \U{2014} ");
    UnbrokenAppend("## [" + e.kind + "] " + e.scope + " \U{2014} ", e.timestamp);
  }

  lemma OptionalIsLine(prefix: string, value: Option<string>)
    requires SingleLine(prefix) && (value.Some? ==> SingleLine(value.value))
    ensures AllUnbroken(Optional(prefix, value), IsBreak)
  {
    if value.Some? {
      UnbrokenAppend(prefix, value.value);
    }
  }

  lemma LabelsAreLines()
    ensures SingleLine(STATEMENT) && SingleLine(CONFIDENCE) && SingleLine("**Chat:** ")
    ensures SingleLine("**Trigger episode:** ") && SingleLine("**Original claim:** ")
  {
  }

  lemma EntryLinesAreLines(f: Format, e: Entry)
    requires Faithful(f) && Regular(f, e)
    ensures AllUnbroken(EntryLines(f, e), IsBreak)
  {
    LabelsAreLines();
    HeaderIsLine(f, e);
    UnbrokenAppend(STATEMENT, e.statement);
    UnbrokenAppend(CONFIDENCE, f.render(e.confidence));
    UnbrokenAppend("**Trigger episode:** ", e.episode);
    OptionalIsLine("**Chat:** ", e.chat);
    OptionalIsLine("**Original claim:** ", e.claim);
  }

  lemma {:induction false} AllLinesAreLines(lines: Entry -> seq<string>, entries: seq<Entry>, isBreak: char -> bool)
    requires forall i :: 0 <= i < |entries| ==> AllUnbroken(lines(entries[i]), isBreak)
    ensures AllUnbroken(AllLines(lines, entries), isBreak)
  {
    if entries != [] {
      AllLinesAreLines(lines, entries[..|entries| - 1], isBreak);
    }
  }

  lemma {:induction false} TerminatedHasNoReturn(lines: seq<string>, isBreak: char -> bool)
    requires AllUnbroken(lines, isBreak) && isBreak('\r')
    ensures '\r' !in Terminated(lines)
  {
    if lines != [] {
      TerminatedHasNoReturn(lines[..|lines| - 1], isBreak);
    }
  }

  /** Text without carriage returns is read as it is. */
  lemma {:induction false} TranslateKeeps(t: string)
    requires '\r' !in t
    ensures Translate(t) == t
  {
    if t != "" {
      TranslateKeeps(t[..|t| - 1]);
    }
  }

  /** A newline appended to a final carriage return is read together with it. */
  lemma {:induction false} TranslateAppend(raw: string, more: string)
    requires '\r' !in more && more != "" && more[0] == '\n'
    ensures Translate(raw + more) == Translate(raw) + if EndsInReturn(raw) then more[1..] else more
  {
    var front, c := more[..|more| - 1], more[|more| - 1];
    assert (raw + more)[..|raw + more| - 1] == raw + front;
    if front == "" {
      assert raw + "" == raw;
    } else {
      TranslateAppend(raw, front);
      assert !EndsInReturn(raw + front);
    }
  }

  /** Translation keeps whether the last line is ended. */
  lemma TranslateEnds(raw: string)
    requires raw != ""
    ensures Translate(raw) != "" && (Ended(Translate(raw), IsBreak) <==> Ended(raw, IsBreak))
  {
    var front := raw[..|raw| - 1];
    if EndsInReturn(front) {
      assert Translate(front)[|Translate(front)| - 1] == '\n';
    }
  }

  lemma LinesOfRendered(f: Format, entries: seq<Entry>)
    requires Faithful(f) && AllRegular(f, entries)
    ensures AllUnbroken(AllLines(LinesBy(f), entries), IsBreak) && '\r' !in RenderedAll(f, entries)
    ensures LinesOfFile(RenderedAll(f, entries)) == AllLines(LinesBy(f), entries)
  {
    RenderedAllIsTerminated(f, entries);
    forall i | 0 <= i < |entries|
      ensures AllUnbroken(LinesBy(f)(entries[i]), IsBreak)
    {
      EntryLinesAreLines(f, entries[i]);
    }
    AllLinesAreLines(LinesBy(f), entries, IsBreak);
    TerminatedHasNoReturn(AllLines(LinesBy(f), entries), IsBreak);
    TranslateKeeps(RenderedAll(f, entries));
    SplitTerminated(AllLines(LinesBy(f), entries), IsBreak);
  }

  /** A blank line at the head of terminated lines is their first newline. */
  lemma BlankFirst(lines: seq<string>)
    requires lines != [] && lines[0] == ""
    ensures Terminated(lines) == "\n" + Terminated(lines[1..])
  {
    TerminatedAppend([""], lines[1..]);
    assert [""] + lines[1..] == lines;
  }

  /** The lines of a text with lines appended that start with a blank one, of whose newline
      the text may have taken in its part already. */
  lemma LinesOfAppended(text: string, lines: seq<string>, taken: bool, isBreak: char -> bool)
    requires AllUnbroken(lines, isBreak) && isBreak('\n') && lines != [] && lines[0] == ""
    requires taken ==> Ended(text, isBreak)
    ensures SplitLines(text + Terminated(if taken then lines[1..] else lines), isBreak)
         == SplitLines(text, isBreak) + if Ended(text, isBreak) && !taken then lines else lines[1..]
  {
    if Ended(text, isBreak) {
      var more := if taken then lines[1..] else lines;
      SplitLinesAppend(text, Terminated(more), isBreak);
      SplitTerminated(more, isBreak);
    } else {
      BlankFirst(lines);
      SplitTerminated(lines[1..], isBreak);
      var tail := Terminated(lines);
      assert tail[0] == '\n' && tail[1..] == Terminated(lines[1..]);
      SplitAfterUnended(text, tail, isBreak);
    }
  }

  /* ---- reading what was written ---- */

  lemma StripTrimmed(s: string)
    requires Trimmed(s)
    ensures Strip(s) == s
  {
  }

  /** How the reader classifies the lines of an entry: by the first characters that differ. */
  lemma HeaderLine(e: Entry)
    ensures HEADER <= Header(e)
  {
    assert Header(e)[..4] == "## [";
    assert Header(e)[..4][..3] == HEADER;
  }

  lemma StatementLine(x: string)
    ensures !(HEADER <= STATEMENT + x) && STATEMENT <= STATEMENT + x && (STATEMENT + x)[|STATEMENT|..] == x
  {
    assert (STATEMENT + x)[0] == '*' != HEADER[0];
  }

  lemma ConfidenceLine(x: string)
    ensures !(HEADER <= CONFIDENCE + x) && !(STATEMENT <= CONFIDENCE + x)
    ensures CONFIDENCE <= CONFIDENCE + x && (CONFIDENCE + x)[|CONFIDENCE|..] == x
  {
    assert (CONFIDENCE + x)[0] == '*' != HEADER[0];
    assert (CONFIDENCE + x)[2] == 'C' != STATEMENT[2];
  }

  /** A line the reader passes over. */
  ghost predicate Idle(line: string) { !(HEADER <= line) && !(STATEMENT <= line) && !(CONFIDENCE <= line) }

  lemma OtherLines(x: string)
    ensures Idle("") && Idle("**Chat:** " + x) && Idle("**Trigger episode:** " + x) && Idle("**Original claim:** " + x)
  {
    assert ("**Chat:** " + x)[2..4] == "Ch";
    assert ("**Trigger episode:** " + x)[2] == 'T';
    assert ("**Original claim:** " + x)[2] == 'O';
    assert STATEMENT[2] == 'S' && CONFIDENCE[2] == 'C' && CONFIDENCE[3] == 'o' && HEADER[0] == '#';
    assert ("**Chat:** " + x)[3] == "Ch"[1];
  }

  lemma ScanAppend(f: Format, lines: seq<string>, line: string)
    ensures ScanLines(f, lines + [line]) == Step(f, ScanLines(f, lines), line, |lines| + 1)
  {
    assert (lines + [line])[..|lines|] == lines;
  }

  lemma ScanIdle(f: Format, lines: seq<string>, more: seq<string>)
    requires |more| <= 1 && forall line :: line in more ==> Idle(line)
    ensures ScanLines(f, lines + more) == ScanLines(f, lines)
  {
    if more == [] {
      assert lines + more == lines;
    } else {
      assert more == [more[0]] && more[0] in more;
      ScanAppend(f, lines, more[0]);
    }
  }

  /** The lines that follow the confidence of an entry change nothing. */
  lemma ScanTail(f: Format, lines: seq<string>, e: Entry)
    ensures ScanLines(f, lines + Optional("**Chat:** ", e.chat) + ["**Trigger episode:** " + e.episode]
                         + Optional("**Original claim:** ", e.claim))
         == ScanLines(f, lines)
  {
    OtherLines(e.episode);
    if e.chat.Some? {
      OtherLines(e.chat.value);
    }
    if e.claim.Some? {
      OtherLines(e.claim.value);
    }
    var l1 := lines + Optional("**Chat:** ", e.chat);
    ScanIdle(f, lines, Optional("**Chat:** ", e.chat));
    ScanIdle(f, l1, ["**Trigger episode:** " + e.episode]);
    ScanIdle(f, l1 + ["**Trigger episode:** " + e.episode], Optional("**Original claim:** ", e.claim));
  }

  /** What the reader holds once it has read the confidence of an entry: its header flushed
      the record before it. */
  lemma ScanHead(f: Format, lines: seq<string>, e: Entry)
    requires Faithful(f) && Regular(f, e)
    ensures ScanLines(f, lines + [Header(e)] + [STATEMENT + e.statement] + [CONFIDENCE + f.render(e.confidence)])
         == Scan(ParseLines(f, lines), e.statement, e.confidence, |lines| + 1)
  {
    HeaderLine(e);
    ScanAppend(f, lines, Header(e));
    StatementLine(e.statement);
    StripTrimmed(e.statement);
    ScanAppend(f, lines + [Header(e)], STATEMENT + e.statement);
    ConfidenceLine(f.render(e.confidence));
    StripTrimmed(f.render(e.confidence));
    ScanAppend(f, lines + [Header(e)] + [STATEMENT + e.statement], CONFIDENCE + f.render(e.confidence));
  }

  /** An entry without its leading blank line. */
  function Body(f: Format, e: Entry): seq<string> { EntryLines(f, e)[1..] }

  lemma BodySplit(f: Format, lines: seq<string>, e: Entry)
    ensures lines + Body(f, e)
         == (lines + [Header(e)] + [STATEMENT + e.statement] + [CONFIDENCE + f.render(e.confidence)])
            + Optional("**Chat:** ", e.chat) + ["**Trigger episode:** " + e.episode]
            + Optional("**Original claim:** ", e.claim)
  {
  }

  function RecordOf(e: Entry, line: nat): Record { Record(e.statement, e.confidence, line) }

  lemma BodyIsRead(f: Format, lines: seq<string>, e: Entry)
    requires Faithful(f) && Regular(f, e)
    ensures ParseLines(f, lines + Body(f, e)) == ParseLines(f, lines) + [RecordOf(e, |lines| + 1)]
  {
    BodySplit(f, lines, e);
    ScanHead(f, lines, e);
    ScanTail(f, lines + [Header(e)] + [STATEMENT + e.statement] + [CONFIDENCE + f.render(e.confidence)], e);
  }

  lemma BlankAndBody(f: Format, lines: seq<string>, e: Entry)
    ensures lines + [""] + Body(f, e) == lines + EntryLines(f, e)
  {
    assert EntryLines(f, e) == [""] + Body(f, e);
    Associates(lines, [""], Body(f, e));
  }

  /** Whatever lines come before it, an appended entry adds its own record, with the line
      number of its own header. */
  lemma EntryIsRead(f: Format, lines: seq<string>, e: Entry)
    requires Faithful(f) && Regular(f, e)
    ensures ParseLines(f, lines + EntryLines(f, e)) == ParseLines(f, lines) + [RecordOf(e, |lines| + 2)]
  {
    OtherLines("");
    ScanIdle(f, lines, [""]);
    BodyIsRead(f, lines + [""], e);
    BlankAndBody(f, lines, e);
  }

  lemma {:induction false} StripLeftSpaces(head: string, s: string)
    requires AllSpace(head) && s != "" && !IsSpace(s[0])
    ensures StripLeft(head + s) == s
  {
    if head == "" {
      assert head + s == s;
    } else {
      assert (head + s)[1..] == head[1..] + s;
      StripLeftSpaces(head[1..], s);
    }
  }

  lemma {:induction false} StripRightSpaces(s: string, tail: string)
    requires AllSpace(tail) && s != "" && !IsSpace(s[|s| - 1])
    ensures StripRight(s + tail) == s
  {
    if tail == "" {
      assert s + tail == s;
    } else {
      assert (s + tail)[..|s + tail| - 1] == s + tail[..|tail| - 1];
      StripRightSpaces(s, tail[..|tail| - 1]);
    }
  }

  /** Any entry, with a statement of any blanks and a confidence of any value, adds the record of
      its stripped statement and of what its confidence reads as, or none when nothing is left. */
  lemma AnyEntryIsRead(f: Format, lines: seq<string>, e: Entry)
    ensures ParseLines(f, lines + EntryLines(f, e))
         == ParseLines(f, lines)
            + if Strip(e.statement) == "" then []
              else [Record(Strip(e.statement), SafeConfidence(f, Strip(f.render(e.confidence))), |lines| + 2)]
  {
    var before := lines + [""];
    OtherLines("");
    ScanIdle(f, lines, [""]);
    HeaderLine(e);
    ScanAppend(f, before, Header(e));
    StatementLine(e.statement);
    ScanAppend(f, before + [Header(e)], STATEMENT + e.statement);
    ConfidenceLine(f.render(e.confidence));
    ScanAppend(f, before + [Header(e)] + [STATEMENT + e.statement], CONFIDENCE + f.render(e.confidence));
    ScanTail(f, before + [Header(e)] + [STATEMENT + e.statement] + [CONFIDENCE + f.render(e.confidence)], e);
    BodySplit(f, before, e);
    BlankAndBody(f, lines, e);
  }

  /** A statement between blanks is read without them. */
  lemma PaddedIsRead(f: Format, lines: seq<string>, e: Entry, head: string, core: string, tail: string)
    requires e.statement == head + core + tail && AllSpace(head) && AllSpace(tail) && Trimmed(core)
    ensures ParseLines(f, lines + EntryLines(f, e))
         == ParseLines(f, lines) + [Record(core, SafeConfidence(f, Strip(f.render(e.confidence))), |lines| + 2)]
  {
    assert head + core + tail == head + (core + tail);
    StripLeftSpaces(head, core + tail);
    StripRightSpaces(core, tail);
    AnyEntryIsRead(f, lines, e);
  }

  /** A header line ends the record before it and starts one of its own: its number, and the default
      confidence until another is read. */
  lemma HeaderStarts(f: Format, lines: seq<string>, x: string, y: string)
    ensures ParseLines(f, lines + [HEADER + x]) == ParseLines(f, lines)
    ensures ParseLines(f, lines + [HEADER + x] + [STATEMENT + y])
         == ParseLines(f, lines) + if Strip(y) == "" then [] else [Record(Strip(y), f.fallback, |lines| + 1)]
  {
    StatementLine(y);
    ScanAppend(f, lines, HEADER + x);
    ScanAppend(f, lines + [HEADER + x], STATEMENT + y);
  }

  /** What stands in a header: kind, scope and time of its entry, in this order. */
  lemma HeaderMeans(e: Entry)
    ensures var h, k, n := Header(e), |e.kind|, |e.scope|;
            && |h| == k + n + |e.timestamp| + 9
            && h[..4] == "## [" && h[4..4 + k] == e.kind && h[4 + k..6 + k] == "] "
            && h[6 + k..6 + k + n] == e.scope && h[|h| - |e.timestamp|..] == e.timestamp
  {
  }

  /** Statements without a header belong to one record, with the last statement and the number of
      the first line. */
  lemma HeaderlessIsRead(f: Format, x: string, y: string)
    ensures ParseLines(f, [STATEMENT + x]) == if Strip(x) == "" then [] else [Record(Strip(x), f.fallback, 1)]
    ensures ParseLines(f, [""] + [STATEMENT + x]) == if Strip(x) == "" then [] else [Record(Strip(x), f.fallback, 2)]
    ensures ParseLines(f, [STATEMENT + x] + [STATEMENT + y])
         == if Strip(y) == "" then [] else [Record(Strip(y), f.fallback, 1)]
  {
    StatementLine(x);
    StatementLine(y);
    OtherLines("");
    assert [] + [STATEMENT + x] == [STATEMENT + x] && [] + [""] == [""];
    ScanAppend(f, [], STATEMENT + x);
    ScanAppend(f, [], "");
    ScanAppend(f, [""], STATEMENT + x);
    ScanAppend(f, [STATEMENT + x], STATEMENT + y);
  }

  /** One record per entry, in order; `before` lines precede the first entry. */
  function RecordsOf(lines: Entry -> seq<string>, entries: seq<Entry>, before: nat): seq<Record> {
    if entries == [] then []
    else
      var front := entries[..|entries| - 1];
      RecordsOf(lines, front, before) + [RecordOf(entries[|entries| - 1], before + |AllLines(lines, front)| + 2)]
  }

  /** Appending the entry's lines appends its record, whatever lines come before. */
  ghost predicate IsRead(parse: seq<string> -> seq<Record>, lines: Entry -> seq<string>, e: Entry) {
    forall before {:trigger parse(before + lines(e))} ::
      parse(before + lines(e)) == parse(before) + [RecordOf(e, |before| + 2)]
  }

  lemma {:induction false} EntriesAreRead(parse: seq<string> -> seq<Record>, lines: Entry -> seq<string>,
                                          before: seq<string>, entries: seq<Entry>)
    requires forall i :: 0 <= i < |entries| ==> IsRead(parse, lines, entries[i])
    ensures parse(before + AllLines(lines, entries)) == parse(before) + RecordsOf(lines, entries, |before|)
  {
    if entries == [] {
      assert before + [] == before;
    } else {
      var front, last := entries[..|entries| - 1], entries[|entries| - 1];
      EntriesAreRead(parse, lines, before, front);
      assert IsRead(parse, lines, last);
      Associates(before, AllLines(lines, front), lines(last));
      assert parse(before + AllLines(lines, front) + lines(last))
          == parse(before + AllLines(lines, front)) + [RecordOf(last, |before + AllLines(lines, front)| + 2)];
    }
  }

  lemma Associates<T>(x: seq<T>, y: seq<T>, z: seq<T>)
    ensures x + (y + z) == x + y + z
  {
  }

  lemma {:induction false} LinesFromFirst(lines: Entry -> seq<string>, e: Entry, rest: seq<Entry>)
    ensures AllLines(lines, [e] + rest) == lines(e) + AllLines(lines, rest)
  {
    if rest == [] {
      assert [e] + rest == [e];
      assert AllLines(lines, [e]) == [] + lines(e);
    } else {
      var front, last := rest[..|rest| - 1], rest[|rest| - 1];
      LinesFromFirst(lines, e, front);
      assert ([e] + rest)[..|rest|] == [e] + front;
      Associates(lines(e), AllLines(lines, front), lines(last));
    }
  }

  lemma {:induction false} RecordsFromFirst(lines: Entry -> seq<string>, e: Entry, rest: seq<Entry>, before: nat)
    ensures RecordsOf(lines, [e] + rest, before)
         == [RecordOf(e, before + 2)] + RecordsOf(lines, rest, before + |lines(e)|)
  {
    if rest == [] {
      assert [e] + rest == [e];
    } else {
      var front, last := rest[..|rest| - 1], rest[|rest| - 1];
      RecordsFromFirst(lines, e, front, before);
      LinesFromFirst(lines, e, front);
      assert ([e] + rest)[..|rest|] == [e] + front;
      var line := before + |lines(e)| + |AllLines(lines, front)| + 2;
      Associates([RecordOf(e, before + 2)], RecordsOf(lines, front, before + |lines(e)|), [RecordOf(last, line)]);
    }
  }

  function Shifted(records: seq<Record>, shift: nat): seq<Record> {
    seq(|records|, i requires 0 <= i < |records| => records[i].(line := records[i].line + shift))
  }

  lemma {:induction false} RecordsShift(lines: Entry -> seq<string>, entries: seq<Entry>, before: nat)
    ensures RecordsOf(lines, entries, before) == Shifted(RecordsOf(lines, entries, 0), before)
  {
    if entries != [] {
      RecordsShift(lines, entries[..|entries| - 1], before);
    }
  }

  /** The i-th record is that of the i-th entry, at the second of its lines. */
  lemma {:induction false} RecordAt(lines: Entry -> seq<string>, entries: seq<Entry>, i: nat)
    requires i < |entries| && forall k :: 0 <= k < |entries| ==> |lines(entries[k])| >= 2
    ensures |RecordsOf(lines, entries, 0)| == |entries|
    ensures var r := RecordsOf(lines, entries, 0)[i];
            && r == RecordOf(entries[i], r.line)
            && 0 < r.line <= |AllLines(lines, entries)|
            && AllLines(lines, entries)[r.line - 1] == lines(entries[i])[1]
  {
    var front := entries[..|entries| - 1];
    RecordsLength(lines, front);
    if i < |front| {
      RecordAt(lines, front, i);
    }
  }

  lemma {:induction false} RecordsLength(lines: Entry -> seq<string>, entries: seq<Entry>)
    ensures |RecordsOf(lines, entries, 0)| == |entries|
  {
    if entries != [] {
      RecordsLength(lines, entries[..|entries| - 1]);
    }
  }

  function Reader(f: Format): seq<string> -> seq<Record> { (lines: seq<string>) => ParseLines(f, lines) }

  lemma EntryIsReadAnywhere(f: Format, e: Entry)
    requires Faithful(f) && Regular(f, e)
    ensures IsRead(Reader(f), LinesBy(f), e)
  {
    forall before
      ensures Reader(f)(before + LinesBy(f)(e)) == Reader(f)(before) + [RecordOf(e, |before| + 2)]
    {
      EntryIsRead(f, before, e);
    }
  }

  lemma AllAreRead(f: Format, entries: seq<Entry>)
    requires Faithful(f) && AllRegular(f, entries)
    ensures forall i :: 0 <= i < |entries| ==> IsRead(Reader(f), LinesBy(f), entries[i])
  {
    forall i | 0 <= i < |entries|
      ensures IsRead(Reader(f), LinesBy(f), entries[i])
    {
      EntryIsReadAnywhere(f, entries[i]);
    }
  }

  lemma ReadAllLines(f: Format, before: seq<string>, entries: seq<Entry>)
    requires Faithful(f) && AllRegular(f, entries)
    ensures ParseLines(f, before + AllLines(LinesBy(f), entries))
         == ParseLines(f, before) + RecordsOf(LinesBy(f), entries, |before|)
  {
    AllAreRead(f, entries);
    EntriesAreRead(Reader(f), LinesBy(f), before, entries);
  }

  lemma ReadRendered(f: Format, entries: seq<Entry>)
    requires Faithful(f) && AllRegular(f, entries)
    ensures Parse(f, RenderedAll(f, entries)) == RecordsOf(LinesBy(f), entries, 0)
  {
    LinesOfRendered(f, entries);
    ReadAllLines(f, [], entries);
    var lines := AllLines(LinesBy(f), entries);
    assert [] + lines == lines;
  }

  lemma HasHeader(f: Format, e: Entry)
    ensures |LinesBy(f)(e)| >= 2 && LinesBy(f)(e)[0] == "" && LinesBy(f)(e)[1] == Header(e)
    ensures LinesBy(f)(e)[1..] == Body(f, e)
  {
  }

  /** Reading the file of any list of regular entries gives one record per entry, in order,
      with its statement, its confidence and the number of its own header line. */
  lemma RoundTrip(f: Format, entries: seq<Entry>, i: nat)
    requires Faithful(f) && AllRegular(f, entries) && i < |entries|
    ensures var text := RenderedAll(f, entries);
            var records := Parse(f, text);
            && |records| == |entries|
            && records[i].text == entries[i].statement && records[i].confidence == entries[i].confidence
            && 0 < records[i].line <= |LinesOfFile(text)|
            && LinesOfFile(text)[records[i].line - 1] == Header(entries[i])
  {
    LinesOfRendered(f, entries);
    ReadRendered(f, entries);
    forall k | 0 <= k < |entries|
      ensures |LinesBy(f)(entries[k])| >= 2
    {
      HasHeader(f, entries[k]);
    }
    RecordAt(LinesBy(f), entries, i);
    HasHeader(f, entries[i]);
  }

  /** How many lines a file puts before what is appended to it: an unended last line takes the
      newline that the first appended entry starts with, and so does a final carriage return. */
  function LineShift(text: string): nat {
    var n := |LinesOfFile(text)|;
    if n == 0 || (Ended(text, IsBreak) && !EndsInReturn(text)) then n else n - 1
  }

  lemma WithoutBlank(lines: Entry -> seq<string>, before: seq<string>, first: Entry, rest: seq<Entry>)
    requires lines(first) != []
    ensures AllLines(lines, [first] + rest) != []
    ensures before + AllLines(lines, [first] + rest)[1..] == before + lines(first)[1..] + AllLines(lines, rest)
  {
    LinesFromFirst(lines, first, rest);
    assert (lines(first) + AllLines(lines, rest))[1..] == lines(first)[1..] + AllLines(lines, rest);
    Associates(before, lines(first)[1..], AllLines(lines, rest));
  }

  /** Entries of which the first is read without its leading blank line. */
  lemma RestIsRead(parse: seq<string> -> seq<Record>, lines: Entry -> seq<string>,
                   before: seq<string>, body: seq<string>, first: Entry, rest: seq<Entry>)
    requires before != [] && |body| == |before| - 1 + |lines(first)|
    requires parse(body) == parse(before) + [RecordOf(first, |before| + 1)]
    requires parse(body + AllLines(lines, rest)) == parse(body) + RecordsOf(lines, rest, |body|)
    ensures parse(body + AllLines(lines, rest)) == parse(before) + RecordsOf(lines, [first] + rest, |before| - 1)
  {
    RecordsFromFirst(lines, first, rest, |before| - 1);
    ReadInTwo(parse, before, body, AllLines(lines, rest),
              [RecordOf(first, |before| + 1)], RecordsOf(lines, rest, |body|),
              RecordsOf(lines, [first] + rest, |before| - 1));
  }

  lemma ReadInTwo<T, U>(parse: seq<T> -> seq<U>, before: seq<T>, body: seq<T>, more: seq<T>,
                        head: seq<U>, tail: seq<U>, records: seq<U>)
    requires records == head + tail
    requires parse(body) == parse(before) + head && parse(body + more) == parse(body) + tail
    ensures parse(body + more) == parse(before) + records
  {
  }

  lemma ReadAfterUnended(f: Format, before: seq<string>, entries: seq<Entry>)
    requires Faithful(f) && AllRegular(f, entries) && entries != [] && before != []
    ensures var lines := AllLines(LinesBy(f), entries);
            lines != [] && ParseLines(f, before + lines[1..])
                == ParseLines(f, before) + RecordsOf(LinesBy(f), entries, |before| - 1)
  {
    var first, rest := entries[0], entries[1..];
    assert entries == [first] + rest;
    HasHeader(f, first);
    BodyIsRead(f, before, first);
    ReadAllLines(f, before + Body(f, first), rest);
    RestIsRead(Reader(f), LinesBy(f), before, before + Body(f, first), first, rest);
    WithoutBlank(LinesBy(f), before, first, rest);
  }

  lemma LinesAfterAppend(f: Format, text: string, entries: seq<Entry>)
    requires Faithful(f) && AllRegular(f, entries) && entries != []
    ensures var lines := AllLines(LinesBy(f), entries);
            var whole := Ended(text, IsBreak) && !EndsInReturn(text);
            && lines != [] && (!whole ==> LinesOfFile(text) != [])
            && LinesOfFile(text + RenderedAll(f, entries)) == LinesOfFile(text) + if whole then lines else lines[1..]
  {
    var lines := AllLines(LinesBy(f), entries);
    LinesOfRendered(f, entries);
    RenderedAllIsTerminated(f, entries);
    LinesFromFirst(LinesBy(f), entries[0], entries[1..]);
    assert entries == [entries[0]] + entries[1..];
    HasHeader(f, entries[0]);
    BlankFirst(lines);
    TranslateAppend(text, Terminated(lines));
    LineOfNonEmpty(text);
    LinesOfAppended(Translate(text), lines, EndsInReturn(text), IsBreak);
  }

  lemma LineOfNonEmpty(text: string)
    ensures Ended(Translate(text), IsBreak) <==> Ended(text, IsBreak)
    ensures text != "" ==> LinesOfFile(text) != []
  {
    if text != "" {
      TranslateEnds(text);
      var t := Translate(text);
      assert SplitOf(t, IsBreak).rest != "" || SplitOf(t, IsBreak).lines != [];
    }
  }

  /** Reading distributes over appended entries, up to a shift of the line numbers. */
  lemma AppendIsRead(f: Format, text: string, entries: seq<Entry>)
    requires Faithful(f) && AllRegular(f, entries)
    ensures Parse(f, text + RenderedAll(f, entries))
         == Parse(f, text) + Shifted(Parse(f, RenderedAll(f, entries)), LineShift(text))
  {
    ReadRendered(f, entries);
    if entries == [] {
      assert text + "" == text;
    } else {
      RecordsShift(LinesBy(f), entries, LineShift(text));
      LinesAfterAppend(f, text, entries);
      if Ended(text, IsBreak) && !EndsInReturn(text) {
        ReadAllLines(f, LinesOfFile(text), entries);
      } else {
        ReadAfterUnended(f, LinesOfFile(text), entries);
      }
    }
  }
}
