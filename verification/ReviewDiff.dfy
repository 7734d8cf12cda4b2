/** parseUnifiedDiffLines of DocumentPreviewPanel.tsx: every line of a unified diff becomes
    a row with the numbers of the lines it stands for. */
module ReviewDiff {
  import opened Wrappers
  import opened Text
  import opened DiffHeader

  datatype Kind = Meta | HunkHead | Context | Added | Removed

  datatype Row = Row(kind: Kind, text: string, oldLine: Option<nat>, newLine: Option<nat>)

  /** `text.replace(/\r\n?/gu, "\n")`. */
  function Normalize(s: string): string {
    if s == "" then ""
    else if s[0] != '\r' then [s[0]] + Normalize(s[1..])
    else if |s| > 1 && s[1] == '\n' then "\n" + Normalize(s[2..])
    else "\n" + Normalize(s[1..])
  }

  /** The numbers of the next line of either file, inside a hunk. */
  datatype At = At(oldLine: nat, newLine: nat)

  const NO_NEWLINE := "\\ No newline"

  function ReadLine(at: Option<At>, line: string): (Row, Option<At>) {
    var hunk := ReadHeader(line, true);
    if hunk.Some? then (Row(HunkHead, line, None, None), Some(At(hunk.value.oldStart, hunk.value.newStart)))
    else if NO_NEWLINE <= line then (Row(Meta, line, None, None), at)
    else if at.Some? && " " <= line then
      (Row(Context, line[1..], Some(at.value.oldLine), Some(at.value.newLine)),
       Some(At(at.value.oldLine + 1, at.value.newLine + 1)))
    else if at.Some? && "-" <= line then
      (Row(Removed, line[1..], Some(at.value.oldLine), None), Some(At(at.value.oldLine + 1, at.value.newLine)))
    else if at.Some? && "+" <= line then
      (Row(Added, line[1..], None, Some(at.value.newLine)), Some(At(at.value.oldLine, at.value.newLine + 1)))
    else (Row(Meta, line, None, None), None)
  }

  function ReadRows(at: Option<At>, lines: seq<string>): seq<Row>
    decreases |lines|
  {
    if lines == [] then []
    else var (row, next) := ReadLine(at, lines[0]); [row] + ReadRows(next, lines[1..])
  }

  function After(at: Option<At>, lines: seq<string>): Option<At>
    decreases |lines|
  {
    if lines == [] then at else After(ReadLine(at, lines[0]).1, lines[1..])
  }

  function ReviewRows(text: string): seq<Row> {
    ReadRows(None, Split(Normalize(text)))
  }

  lemma {:induction false} ReadRowsConcat(at: Option<At>, a: seq<string>, b: seq<string>)
    ensures ReadRows(at, a + b) == ReadRows(at, a) + ReadRows(After(at, a), b)
    ensures After(at, a + b) == After(After(at, a), b)
    decreases |a|
  {
    hide ReadHeader;
    if a == [] {
      assert a + b == b;
    } else {
      assert (a + b)[1..] == a[1..] + b;
      ReadRowsConcat(ReadLine(at, a[0]).1, a[1..], b);
    }
  }

  lemma ReadRowsAppend(at: Option<At>, a: seq<string>, line: string)
    ensures ReadRows(at, a + [line]) == ReadRows(at, a) + [ReadLine(After(at, a), line).0]
    ensures After(at, a + [line]) == ReadLine(After(at, a), line).1
  {
    hide ReadHeader;
    ReadRowsConcat(at, a, [line]);
    assert [line][1..] == [];
  }

  /** The code: two nullable line numbers, updated while the lines are mapped. */
  method ParseUnifiedDiffLines(text: string) returns (rows: seq<Row>)
    ensures rows == ReviewRows(text)
  {
    hide ReadHeader, Normalize, Split;
    var oldLine, newLine: Option<nat> := None, None;
    var lines := Split(Normalize(text));
    rows := [];
    for i := 0 to |lines|
      invariant oldLine.Some? == newLine.Some?
      invariant After(None, lines[..i]) == if oldLine.Some? then Some(At(oldLine.value, newLine.value)) else None
      invariant rows == ReadRows(None, lines[..i])
    {
      var line := lines[i];
      ReadRowsAppend(None, lines[..i], line);
      assert lines[..i + 1] == lines[..i] + [line];
      var hunk := ReadHeader(line, true);
      if hunk.Some? {
        oldLine, newLine := Some(hunk.value.oldStart), Some(hunk.value.newStart);
        rows := rows + [Row(HunkHead, line, None, None)];
      } else if NO_NEWLINE <= line {
        rows := rows + [Row(Meta, line, None, None)];
      } else if oldLine.Some? && newLine.Some? && " " <= line {
        rows := rows + [Row(Context, line[1..], oldLine, newLine)];
        oldLine, newLine := Some(oldLine.value + 1), Some(newLine.value + 1);
      } else if oldLine.Some? && newLine.Some? && "-" <= line {
        rows := rows + [Row(Removed, line[1..], oldLine, None)];
        oldLine := Some(oldLine.value + 1);
      } else if oldLine.Some? && newLine.Some? && "+" <= line {
        rows := rows + [Row(Added, line[1..], None, newLine)];
        newLine := Some(newLine.value + 1);
      } else {
        oldLine, newLine := None, None;
        rows := rows + [Row(Meta, line, None, None)];
      }
    }
    assert lines[..|lines|] == lines;
  }

  // ----- every input line can be read off its row -----

  function Restore(row: Row): string {
    match row.kind
    case Context => " " + row.text
    case Removed => "-" + row.text
    case Added => "+" + row.text
    case _ => row.text
  }

  lemma LineRestored(at: Option<At>, line: string)
    ensures Restore(ReadLine(at, line).0) == line
  {
    hide ReadHeader;
    if line != "" {
      assert line == [line[0]] + line[1..];
      assert "+" <= line <==> line[0] == '+';
      assert "-" <= line <==> line[0] == '-';
      assert " " <= line <==> line[0] == ' ';
    }
  }

  /** For every text at all: one row a line, and the row's prefix and text are the line. */
  lemma {:induction false} RowsRestoreLines(at: Option<At>, lines: seq<string>)
    ensures var rows := ReadRows(at, lines);
            |rows| == |lines| && forall i | 0 <= i < |lines| :: Restore(rows[i]) == lines[i]
    decreases |lines|
  {
    hide ReadLine, Restore;
    if lines != [] {
      LineRestored(at, lines[0]);
      RowsRestoreLines(ReadLine(at, lines[0]).1, lines[1..]);
    }
  }

  // ----- printing an edit script -----

  datatype BodyLine = Keep(text: string) | Cut(text: string) | Add(text: string) | NoEol

  /** A diff between two files: stretches left out, which both files share, and hunks. */
  datatype Chunk = Gap(lines: seq<string>) | Change(heading: string, body: seq<BodyLine>)

  function PrintLine(b: BodyLine): string {
    match b
    case Keep(t) => " " + t
    case Cut(t) => "-" + t
    case Add(t) => "+" + t
    case NoEol => "\\ No newline at end of file"
  }

  function PrintBody(body: seq<BodyLine>): seq<string> {
    if body == [] then [] else [PrintLine(body[0])] + PrintBody(body[1..])
  }

  function OldLines(body: seq<BodyLine>): seq<string> {
    if body == [] then []
    else (if body[0].Keep? || body[0].Cut? then [body[0].text] else []) + OldLines(body[1..])
  }

  function NewLines(body: seq<BodyLine>): seq<string> {
    if body == [] then []
    else (if body[0].Keep? || body[0].Add? then [body[0].text] else []) + NewLines(body[1..])
  }

  function OldOf(c: Chunk): seq<string> {
    if c.Gap? then c.lines else OldLines(c.body)
  }

  function NewOf(c: Chunk): seq<string> {
    if c.Gap? then c.lines else NewLines(c.body)
  }

  function OldFile(script: seq<Chunk>): seq<string> {
    if script == [] then [] else OldOf(script[0]) + OldFile(script[1..])
  }

  function NewFile(script: seq<Chunk>): seq<string> {
    if script == [] then [] else NewOf(script[0]) + NewFile(script[1..])
  }

  /** The header of a hunk that follows o old and n new lines; a side without lines names
      the line before it. */
  function HeaderOf(before: seq<string>, after: seq<string>, o: nat, n: nat): Header {
    Header(if before == [] then o else o + 1, |before|, if after == [] then n else n + 1, |after|)
  }

  function PrintHunk(head: string, body: seq<BodyLine>): seq<string> {
    [head] + PrintBody(body)
  }

  /** A hunk as it stands in a diff: the header, the line that prints it, and the body. */
  datatype Hunk = Hunk(header: Header, head: string, body: seq<BodyLine>)

  function ChunkHunks(c: Chunk, o: nat, n: nat): seq<Hunk> {
    if c.Gap? then []
    else
      var h := HeaderOf(OldOf(c), NewOf(c), o, n);
      [Hunk(h, PrintHeader(h, c.heading), c.body)]
  }

  /** The hunks of a script that follows o old and n new lines. */
  function Hunks(script: seq<Chunk>, o: nat, n: nat): seq<Hunk> {
    if script == [] then []
    else
      ChunkHunks(script[0], o, n) + Hunks(script[1..], o + |OldOf(script[0])|, n + |NewOf(script[0])|)
  }

  function PrintHunks(hunks: seq<Hunk>): seq<string> {
    if hunks == [] then [] else PrintHunk(hunks[0].head, hunks[0].body) + PrintHunks(hunks[1..])
  }

  /** A line of a text file: no line feed, and a carriage return only at its end. */
  predicate Plain(t: string) {
    '\n' !in t && '\r' !in StripCR(t)
  }

  predicate PlainBody(body: seq<BodyLine>) {
    forall b | b in body :: !b.NoEol? ==> Plain(b.text)
  }

  predicate PlainScript(script: seq<Chunk>) {
    forall c | c in script :: c.Change? ==> Plain(c.heading) && PlainBody(c.body)
  }

  // ----- the rows a hunk must have -----

  function BodyRow(at: At, b: BodyLine): Row {
    match b
    case Keep(t) => Row(Context, StripCR(t), Some(at.oldLine), Some(at.newLine))
    case Cut(t) => Row(Removed, StripCR(t), Some(at.oldLine), None)
    case Add(t) => Row(Added, StripCR(t), None, Some(at.newLine))
    case NoEol => Row(Meta, PrintLine(NoEol), None, None)
  }

  function Next(at: At, b: BodyLine): At {
    At(at.oldLine + (if b.Keep? || b.Cut? then 1 else 0), at.newLine + (if b.Keep? || b.Add? then 1 else 0))
  }

  function BodyRows(at: At, body: seq<BodyLine>): seq<Row>
    decreases |body|
  {
    if body == [] then [] else [BodyRow(at, body[0])] + BodyRows(Next(at, body[0]), body[1..])
  }

  function HunkRows(h: Hunk): seq<Row> {
    [Row(HunkHead, StripCR(h.head), None, None)] + BodyRows(At(h.header.oldStart, h.header.newStart), h.body)
  }

  function AllRows(hunks: seq<Hunk>): seq<Row> {
    if hunks == [] then [] else HunkRows(hunks[0]) + AllRows(hunks[1..])
  }

  lemma StripPrefixed(p: string, t: string)
    requires p != "" && Last(p) != '\r'
    ensures StripCR(p + t) == p + StripCR(t)
  {
    if t != "" {
      assert (p + t)[..|p + t| - 1] == p + t[..|t| - 1];
    } else {
      assert p + t == p;
    }
  }

  lemma NotHeader(line: string)
    requires line != "" && line[0] != '@'
    ensures ReadHeader(line, true).None?
  {
    assert "@@ -"[0] == '@';
  }

  lemma BodyLineIsRead(at: At, b: BodyLine)
    ensures ReadLine(Some(at), StripCR(PrintLine(b))) == (BodyRow(at, b), Some(Next(at, b)))
  {
    hide ReadHeader;
    var line := StripCR(PrintLine(b));
    if b.NoEol? {
      NotHeader(line);
      assert NO_NEWLINE <= line;
    } else {
      var prefix := PrintLine(b)[..1];
      assert PrintLine(b) == prefix + b.text;
      StripPrefixed(prefix, b.text);
      assert line[0] in {' ', '-', '+'} && line[1..] == StripCR(b.text);
      assert line[0] != NO_NEWLINE[0];
      NotHeader(line);
    }
  }

  lemma {:induction false} BodyIsRead(at: At, body: seq<BodyLine>)
    ensures ReadRows(Some(at), StripAll(PrintBody(body))) == BodyRows(at, body)
    ensures After(Some(at), StripAll(PrintBody(body))).Some?
    decreases |body|
  {
    hide ReadHeader;
    if body != [] {
      StripAllCons(PrintLine(body[0]), PrintBody(body[1..]));
      BodyLineIsRead(at, body[0]);
      BodyIsRead(Next(at, body[0]), body[1..]);
      var all := StripAll(PrintBody(body));
      assert all[1..] == StripAll(PrintBody(body[1..]));
    }
  }

  lemma HeaderLine(h: Header, heading: string)
    ensures ReadHeader(StripCR(PrintHeader(h, heading)), true) == Some(h)
  {
    var front := PrintHeader(h, "");
    var mid := PrintSide(h.oldStart, h.oldCount) + (" +" + (PrintSide(h.newStart, h.newCount) + " @@"));
    assert " @@" + "" == " @@";
    assert front == "@@ -" + mid;
    assert PrintHeader(h, heading) == front + heading by {
      assert " @@" + heading == " @@" + "" + heading;
      HeaderAppend(PrintSide(h.oldStart, h.oldCount), PrintSide(h.newStart, h.newCount), heading);
    }
    assert PrintHeader(h, StripCR(heading)) == front + StripCR(heading) by {
      HeaderAppend(PrintSide(h.oldStart, h.oldCount), PrintSide(h.newStart, h.newCount), StripCR(heading));
    }
    assert Last(front) == '@' by {
      assert Last(mid) == '@';
    }
    StripPrefixed(front, heading);
    ReadPrintedHeader(h, StripCR(heading), true);
  }

  lemma HeaderAppend(a: string, b: string, heading: string)
    ensures "@@ -" + (a + (" +" + (b + (" @@" + heading)))) == "@@ -" + (a + (" +" + (b + (" @@" + "")))) + heading
  {
  }

  lemma ReadRowsCons(at: Option<At>, line: string, lines: seq<string>)
    ensures ReadRows(at, [line] + lines) == [ReadLine(at, line).0] + ReadRows(ReadLine(at, line).1, lines)
  {
    hide ReadHeader;
    assert ([line] + lines)[1..] == lines;
  }

  /** A hunk whose head line reads as its header, the counts included. */
  ghost predicate WellPrinted(h: Hunk) {
    && Plain(h.head) && PlainBody(h.body)
    && ReadHeader(StripCR(h.head), true) == Some(h.header) && ReadHeader(h.head, false) == Some(h.header)
    && h.header.oldCount == |OldLines(h.body)| && h.header.newCount == |NewLines(h.body)|
  }

  lemma HunkIsRead(at: Option<At>, h: Hunk)
    requires WellPrinted(h)
    ensures ReadRows(at, StripAll(PrintHunk(h.head, h.body))) == HunkRows(h)
  {
    hide ReadHeader;
    BodyIsRead(At(h.header.oldStart, h.header.newStart), h.body);
    StripAllCons(h.head, PrintBody(h.body));
    ReadRowsCons(at, StripCR(h.head), StripAll(PrintBody(h.body)));
  }

  lemma ReadTwoParts(at: Option<At>, a: seq<string>, b: seq<string>)
    ensures ReadRows(at, StripAll(a + b)) == ReadRows(at, StripAll(a)) + ReadRows(After(at, StripAll(a)), StripAll(b))
    ensures After(at, StripAll(a + b)) == After(After(at, StripAll(a)), StripAll(b))
  {
    hide ReadHeader;
    StripAllConcat(a, b);
    ReadRowsConcat(at, StripAll(a), StripAll(b));
  }

  /** Whatever was read before, printed hunks are read as their rows. */
  lemma {:induction false} HunksAreRead(at: Option<At>, hunks: seq<Hunk>)
    requires forall h | h in hunks :: WellPrinted(h)
    ensures ReadRows(at, StripAll(PrintHunks(hunks))) == AllRows(hunks)
    decreases |hunks|
  {
    hide ReadHeader;
    if hunks != [] {
      var first, rest := PrintHunk(hunks[0].head, hunks[0].body), PrintHunks(hunks[1..]);
      HunkIsRead(at, hunks[0]);
      ReadTwoParts(at, first, rest);
      HunksAreRead(After(at, StripAll(first)), hunks[1..]);
    }
  }

  // ----- and what they say about the two files -----

  /** The row's numbers are those of its lines: its text is the text of those lines. */
  ghost predicate Indexes(row: Row, before: seq<string>, after: seq<string>) {
    && (row.kind.Context? || row.kind.Removed? <==> row.oldLine.Some?)
    && (row.kind.Context? || row.kind.Added? <==> row.newLine.Some?)
    && (row.oldLine.Some? ==> 1 <= row.oldLine.value <= |before| && StripCR(before[row.oldLine.value - 1]) == row.text)
    && (row.newLine.Some? ==> 1 <= row.newLine.value <= |after| && StripCR(after[row.newLine.value - 1]) == row.text)
  }

  /** The old (new) line numbers the rows carry, in order. */
  function OldNumbers(rows: seq<Row>): seq<nat> {
    if rows == [] then []
    else (if rows[0].oldLine.Some? then [rows[0].oldLine.value] else []) + OldNumbers(rows[1..])
  }

  function NewNumbers(rows: seq<Row>): seq<nat> {
    if rows == [] then []
    else (if rows[0].newLine.Some? then [rows[0].newLine.value] else []) + NewNumbers(rows[1..])
  }

  function Range(from: nat, count: nat): seq<nat>
    decreases count
  {
    if count == 0 then [] else [from] + Range(from + 1, count - 1)
  }

  /** Inside one hunk the numbers of either side are consecutive, and none is missing. */
  lemma {:induction false} BodyNumbers(at: At, body: seq<BodyLine>)
    ensures OldNumbers(BodyRows(at, body)) == Range(at.oldLine, |OldLines(body)|)
    ensures NewNumbers(BodyRows(at, body)) == Range(at.newLine, |NewLines(body)|)
    decreases |body|
  {
    hide StripCR;
    if body != [] {
      BodyNumbers(Next(at, body[0]), body[1..]);
      assert BodyRows(at, body)[1..] == BodyRows(Next(at, body[0]), body[1..]);
    }
  }

  /** `file` holds `lines` from line number `at` on (any number does when there are none). */
  ghost predicate HoldsAt(file: seq<string>, at: nat, lines: seq<string>)
    decreases |lines|
  {
    lines == [] || (1 <= at <= |file| && file[at - 1] == lines[0] && HoldsAt(file, at + 1, lines[1..]))
  }

  lemma HoldsTail(file: seq<string>, at: nat, first: string, rest: seq<string>)
    requires HoldsAt(file, at, [first] + rest)
    ensures 1 <= at <= |file| && file[at - 1] == first && HoldsAt(file, at + 1, rest)
  {
    assert ([first] + rest)[1..] == rest;
  }

  lemma OldStep(b: BodyLine, rest: seq<BodyLine>, at: nat, file: seq<string>)
    requires HoldsAt(file, at, (if b.Keep? || b.Cut? then [b.text] else []) + OldLines(rest))
    ensures b.Keep? || b.Cut? ==> 1 <= at <= |file| && file[at - 1] == b.text
    ensures HoldsAt(file, if b.Keep? || b.Cut? then at + 1 else at, OldLines(rest))
  {
    if b.Keep? || b.Cut? {
      HoldsTail(file, at, b.text, OldLines(rest));
    } else {
      assert [] + OldLines(rest) == OldLines(rest);
    }
  }

  lemma NewStep(b: BodyLine, rest: seq<BodyLine>, at: nat, file: seq<string>)
    requires HoldsAt(file, at, (if b.Keep? || b.Add? then [b.text] else []) + NewLines(rest))
    ensures b.Keep? || b.Add? ==> 1 <= at <= |file| && file[at - 1] == b.text
    ensures HoldsAt(file, if b.Keep? || b.Add? then at + 1 else at, NewLines(rest))
  {
    if b.Keep? || b.Add? {
      HoldsTail(file, at, b.text, NewLines(rest));
    } else {
      assert [] + NewLines(rest) == NewLines(rest);
    }
  }

  lemma {:induction false} BodyIndexes(at: At, body: seq<BodyLine>, before: seq<string>, after: seq<string>)
    requires HoldsAt(before, at.oldLine, OldLines(body)) && HoldsAt(after, at.newLine, NewLines(body))
    ensures forall r | r in BodyRows(at, body) :: Indexes(r, before, after)
    decreases |body|
  {
    hide StripCR;
    if body != [] {
      var b, rest := body[0], body[1..];
      OldStep(b, rest, at.oldLine, before);
      NewStep(b, rest, at.newLine, after);
      BodyIndexes(Next(at, b), rest, before, after);
      ConsIndexed(BodyRow(at, b), BodyRows(Next(at, b), rest), before, after);
    }
  }

  lemma ConsIndexed(row: Row, rows: seq<Row>, before: seq<string>, after: seq<string>)
    requires Indexes(row, before, after) && forall r | r in rows :: Indexes(r, before, after)
    ensures forall r | r in [row] + rows :: Indexes(r, before, after)
  {
  }

  /** A printed script: every hunk is well printed, and its numbers find its lines. */
  ghost predicate Placed(h: Hunk, before: seq<string>, after: seq<string>) {
    HoldsAt(before, h.header.oldStart, OldLines(h.body)) && HoldsAt(after, h.header.newStart, NewLines(h.body))
  }

  ghost predicate AllGood(hunks: seq<Hunk>, before: seq<string>, after: seq<string>) {
    hunks == []
    || (WellPrinted(hunks[0]) && Placed(hunks[0], before, after) && AllGood(hunks[1..], before, after))
  }

  lemma ChunkGood(c: Chunk, o: nat, n: nat, before: seq<string>, after: seq<string>)
    requires c.Change? ==> Plain(c.heading) && PlainBody(c.body)
    requires HoldsAt(before, o + 1, OldOf(c)) && HoldsAt(after, n + 1, NewOf(c))
    ensures AllGood(ChunkHunks(c, o, n), before, after)
  {
    hide ReadHeader, PrintHeader, StripCR;
    if c.Change? {
      var h := HeaderOf(OldOf(c), NewOf(c), o, n);
      HeaderLine(h, c.heading);
      ReadPrintedHeader(h, c.heading, false);
      PlainHeader(h, c.heading);
      assert WellPrinted(Hunk(h, PrintHeader(h, c.heading), c.body));
    }
  }

  lemma {:induction false} ConcatGood(a: seq<Hunk>, b: seq<Hunk>, before: seq<string>, after: seq<string>)
    requires AllGood(a, before, after) && AllGood(b, before, after)
    ensures AllGood(a + b, before, after)
    decreases |a|
  {
    hide ReadHeader, PrintHeader, StripCR;
    if a == [] {
      assert a + b == b;
    } else {
      assert (a + b)[1..] == a[1..] + b;
      ConcatGood(a[1..], b, before, after);
    }
  }

  lemma {:induction false} EachGood(hunks: seq<Hunk>, before: seq<string>, after: seq<string>)
    requires AllGood(hunks, before, after)
    ensures forall h | h in hunks :: WellPrinted(h) && Placed(h, before, after)
    decreases |hunks|
  {
    hide ReadHeader, PrintHeader, StripCR;
    if hunks != [] {
      EachGood(hunks[1..], before, after);
    }
  }

  lemma {:induction false} ScriptHunks(script: seq<Chunk>, o: nat, n: nat, before: seq<string>, after: seq<string>)
    requires PlainScript(script)
    requires o <= |before| && before[o..] == OldFile(script)
    requires n <= |after| && after[n..] == NewFile(script)
    ensures AllGood(Hunks(script, o, n), before, after)
    decreases |script|
  {
    hide ReadHeader, PrintHeader, StripCR, HoldsAt, ChunkHunks, OldLines, NewLines;
    if script != [] {
      var c, rest := script[0], script[1..];
      var o', n' := o + |OldOf(c)|, n + |NewOf(c)|;
      var first, others := ChunkHunks(c, o, n), Hunks(rest, o', n');
      assert AllGood(first, before, after) && AllGood(others, before, after) by {
        Slice(before, o, OldOf(c), OldFile(rest));
        Slice(after, n, NewOf(c), NewFile(rest));
        ChunkGood(c, o, n, before, after);
        ScriptHunks(rest, o', n', before, after);
      }
      ConcatGood(first, others, before, after);
      HunksUnfold(script, o, n);
    }
  }

  lemma HunksUnfold(script: seq<Chunk>, o: nat, n: nat)
    requires script != []
    ensures Hunks(script, o, n)
         == ChunkHunks(script[0], o, n) + Hunks(script[1..], o + |OldOf(script[0])|, n + |NewOf(script[0])|)
  {
    hide ReadHeader, PrintHeader, StripCR;
  }

  lemma {:induction false} HoldsPrefix(file: seq<string>, at: nat, lines: seq<string>)
    requires at + |lines| <= |file| && file[at..at + |lines|] == lines
    ensures HoldsAt(file, at + 1, lines)
    decreases |lines|
  {
    if lines != [] {
      assert file[at] == file[at..at + |lines|][0];
      assert file[at + 1..at + |lines|] == file[at..at + |lines|][1..];
      HoldsPrefix(file, at + 1, lines[1..]);
    }
  }

  lemma Slice(file: seq<string>, at: nat, lines: seq<string>, rest: seq<string>)
    requires at <= |file| && file[at..] == lines + rest
    ensures at + |lines| <= |file| && file[at + |lines|..] == rest && HoldsAt(file, at + 1, lines)
  {
    assert file[at..][|lines|..] == rest;
    assert file[at..][..|lines|] == lines;
    HoldsPrefix(file, at, lines);
  }

  lemma {:induction false} HunksIndex(hunks: seq<Hunk>, before: seq<string>, after: seq<string>)
    requires forall h | h in hunks :: Placed(h, before, after)
    ensures forall r | r in AllRows(hunks) :: Indexes(r, before, after)
    decreases |hunks|
  {
    hide ReadHeader, PrintHeader, StripCR;
    if hunks != [] {
      assert Placed(hunks[0], before, after);
      BodyIndexes(At(hunks[0].header.oldStart, hunks[0].header.newStart), hunks[0].body, before, after);
      HunksIndex(hunks[1..], before, after);
    }
  }

  // ----- the text as a whole -----

  lemma KeepsFirst(t: string)
    requires |t| > 1
    ensures t[0] in StripCR(t)
  {
    assert StripCR(t)[0] == t[0];
  }

  lemma {:induction false} NormalizePlain(t: string, rest: string)
    requires Plain(t)
    ensures Normalize(t + "\n" + rest) == StripCR(t) + "\n" + Normalize(rest)
    decreases |t|
  {
    var s := t + "\n" + rest;
    if t == "" {
      assert s[1..] == rest;
    } else if t[0] == '\r' {
      if |t| > 1 {
        KeepsFirst(t);
      }
      assert t == "\r";
      assert s[2..] == rest;
    } else {
      assert s[1..] == t[1..] + "\n" + rest;
      assert StripCR(t) == [t[0]] + StripCR(t[1..]);
      NormalizePlain(t[1..], rest);
    }
  }

  lemma {:induction false} NormalizeTerminated(lines: seq<string>)
    requires forall l | l in lines :: Plain(l)
    ensures Normalize(Terminated(lines)) == Terminated(StripAll(lines))
    decreases |lines|
  {
    if lines != [] {
      NormalizePlain(lines[0], Terminated(lines[1..]));
      NormalizeTerminated(lines[1..]);
      StripAllCons(lines[0], lines[1..]);
      assert [lines[0]] + lines[1..] == lines;
    }
  }

  lemma {:induction false} StrippedNoFeed(lines: seq<string>)
    requires forall l | l in lines :: Plain(l)
    ensures forall l | l in StripAll(lines) :: '\n' !in l
    decreases |lines|
  {
    if lines != [] {
      assert Plain(lines[0]);
      StrippedNoFeed(lines[1..]);
    }
  }

  lemma TextIsRead(lines: seq<string>)
    requires forall l | l in lines :: Plain(l)
    ensures ReviewRows(Terminated(lines)) == ReadRows(None, StripAll(lines)) + [Row(Meta, "", None, None)]
  {
    hide ReadHeader, ReadLine, Normalize, Split;
    NormalizeTerminated(lines);
    StrippedNoFeed(lines);
    SplitTerminated(StripAll(lines));
    ReadRowsAppend(None, StripAll(lines), "");
    EmptyLine(After(None, StripAll(lines)));
  }

  lemma EmptyLine(at: Option<At>)
    ensures ReadLine(at, "").0 == Row(Meta, "", None, None)
  {
  }

  /** What stands before the heading has no line break. */
  lemma HeaderFront(h: Header, heading: string)
    ensures var front := PrintHeader(h, "");
            PrintHeader(h, heading) == front + heading && front != "" && '\n' !in front && '\r' !in front
  {
    hide PrintSide;
    var a, b := PrintSide(h.oldStart, h.oldCount), PrintSide(h.newStart, h.newCount);
    HeaderAppend(a, b, heading);
    PlainSide(h.oldStart, h.oldCount);
    PlainSide(h.newStart, h.newCount);
    assert PrintHeader(h, "") == "@@ -" + a + " +" + b + " @@" by {
      assert " @@" + "" == " @@";
    }
  }

  lemma PlainHeader(h: Header, heading: string)
    requires Plain(heading)
    ensures Plain(PrintHeader(h, heading))
  {
    hide PrintHeader;
    HeaderFront(h, heading);
    PlainAfter(PrintHeader(h, ""), heading);
  }

  lemma PlainSide(start: nat, count: nat)
    ensures '\n' !in PrintSide(start, count) && '\r' !in PrintSide(start, count)
  {
    assert forall c | c in Decimal(start) :: IsDigit(c);
    assert forall c | c in Decimal(count) :: IsDigit(c);
  }

  lemma {:induction false} PlainPrintedBody(body: seq<BodyLine>)
    requires PlainBody(body)
    ensures forall l | l in PrintBody(body) :: Plain(l)
    decreases |body|
  {
    hide PrintLine, Plain;
    if body != [] {
      PlainPrintedLine(body[0]);
      PlainPrintedBody(body[1..]);
    }
  }

  lemma PlainPrintedLine(b: BodyLine)
    requires !b.NoEol? ==> Plain(b.text)
    ensures Plain(PrintLine(b))
  {
    if !b.NoEol? {
      var prefix := PrintLine(b)[..1];
      assert PrintLine(b) == prefix + b.text;
      StripPrefixed(prefix, b.text);
    }
  }

  lemma {:induction false} PlainPrinted(hunks: seq<Hunk>)
    requires forall h | h in hunks :: WellPrinted(h)
    ensures forall l | l in PrintHunks(hunks) :: Plain(l)
    decreases |hunks|
  {
    if hunks != [] {
      assert WellPrinted(hunks[0]);
      PlainPrintedBody(hunks[0].body);
      PlainPrinted(hunks[1..]);
    }
  }

  /** Lines before the first hunk: nothing in them reads as a hunk header. */
  ghost predicate Preamble(lines: seq<string>) {
    forall l | l in lines :: Plain(l) && ReadHeader(StripCR(l), true).None?
  }

  function MetaRows(lines: seq<string>): seq<Row> {
    if lines == [] then [] else [Row(Meta, StripCR(lines[0]), None, None)] + MetaRows(lines[1..])
  }

  lemma {:induction false} PreambleIsRead(lines: seq<string>)
    requires Preamble(lines)
    ensures ReadRows(None, StripAll(lines)) == MetaRows(lines) && After(None, StripAll(lines)).None?
    decreases |lines|
  {
    hide ReadHeader;
    if lines != [] {
      assert Plain(lines[0]) && ReadHeader(StripCR(lines[0]), true).None?;
      PreambleIsRead(lines[1..]);
      assert [lines[0]] + lines[1..] == lines;
      StripAllCons(lines[0], lines[1..]);
      ReadRowsCons(None, StripCR(lines[0]), StripAll(lines[1..]));
      assert StripAll(lines)[1..] == StripAll(lines[1..]);
    }
  }

  lemma PrintedIsRead(preamble: seq<string>, hunks: seq<Hunk>)
    requires Preamble(preamble) && forall h | h in hunks :: WellPrinted(h)
    ensures ReviewRows(Terminated(preamble + PrintHunks(hunks)))
         == MetaRows(preamble) + AllRows(hunks) + [Row(Meta, "", None, None)]
  {
    hide ReadHeader, PrintHeader, StripCR, Normalize, Split;
    var printed := PrintHunks(hunks);
    PlainPrinted(hunks);
    TextIsRead(preamble + printed);
    PreambleIsRead(preamble);
    ReadTwoParts(None, preamble, printed);
    HunksAreRead(After(None, StripAll(preamble)), hunks);
  }

  /** Print any edit script as a unified diff and read it back: the rows are those of the
      script's hunks, and each one's numbers point at its own lines of the two files. */
  lemma ReviewRoundTrip(preamble: seq<string>, script: seq<Chunk>)
    requires Preamble(preamble) && PlainScript(script)
    ensures var hunks := Hunks(script, 0, 0);
            var rows := ReviewRows(Terminated(preamble + PrintHunks(hunks)));
            && rows == MetaRows(preamble) + AllRows(hunks) + [Row(Meta, "", None, None)]
            && forall r | r in rows :: Indexes(r, OldFile(script), NewFile(script))
  {
    hide ReadHeader, PrintHeader, StripCR, Normalize, Split, HeaderOf, ChunkHunks, ReadRows;
    ScriptHunks(script, 0, 0, OldFile(script), NewFile(script));
    EachGood(Hunks(script, 0, 0), OldFile(script), NewFile(script));
    HunksIndex(Hunks(script, 0, 0), OldFile(script), NewFile(script));
    PrintedIsRead(preamble, Hunks(script, 0, 0));
    MetaIndexes(preamble, OldFile(script), NewFile(script));
  }

  lemma {:induction false} MetaIndexes(lines: seq<string>, before: seq<string>, after: seq<string>)
    ensures forall r | r in MetaRows(lines) :: Indexes(r, before, after)
  {
    if lines != [] {
      MetaIndexes(lines[1..], before, after);
    }
  }

  // ----- a carriage return inside a line breaks it -----

  function Count(s: string, c: char): nat {
    if s == "" then 0 else (if s[0] == c then 1 else 0) + Count(s[1..], c)
  }

  lemma {:induction false} CountNone(s: string, c: char)
    ensures Count(s, c) == 0 <==> c !in s
    decreases |s|
  {
    if s != "" {
      assert s == [s[0]] + s[1..];
      CountNone(s[1..], c);
    }
  }

  lemma {:induction false} SplitCounts(s: string)
    ensures |Split(s)| == Count(s, '\n') + 1
    decreases |s|
  {
    if s != "" {
      assert s == [s[0]] + s[1..];
      SplitCounts(s[1..]);
      SplitFirst(s[0], s[1..]);
    } else {
      SplitPlain("");
    }
  }

  lemma SplitFirst(c: char, s: string)
    ensures |Split([c] + s)| == |Split(s)| + if c == '\n' then 1 else 0
  {
    hide Split;
    if c == '\n' {
      SplitHead("", s);
      assert "" + "\n" + s == [c] + s;
    } else {
      SplitConcat([c], s);
      SplitPlain([c]);
      assert Front([[c]]) == [] && Last([[c]]) == [c];
      SplitLonger([c], s);
    }
  }

  /** What is added in front of a string stays in its first piece. */
  lemma SplitLonger(a: string, s: string)
    requires '\n' !in a
    ensures |Split(a + s)| == |Split(s)|
  {
    var i := IndexOf(s, '\n');
    hide Split, IndexOf;
    if i < 0 {
      SplitPlain(a + s);
      SplitPlain(s);
    } else {
      var h, t := s[..i], s[i + 1..];
      CutAt(s, i);
      Shifted(a, h, t);
      SplitHead(h, t);
      SplitHead(a + h, t);
    }
  }

  lemma Shifted(a: string, h: string, t: string)
    ensures a + (h + "\n" + t) == (a + h) + "\n" + t
  {
  }

  /** The carriage returns of a line but for one at its end. */
  function Inner(t: string): nat {
    Count(StripCR(t), '\r')
  }

  lemma StripTail(t: string)
    requires |t| > 1
    ensures StripCR(t) == [t[0]] + StripCR(t[1..])
  {
  }

  lemma {:induction false} NormalizeCounts(t: string, rest: string)
    requires '\n' !in t
    ensures Count(Normalize(t + "\n" + rest), '\n') == 1 + Inner(t) + Count(Normalize(rest), '\n')
    decreases |t|
  {
    var s := t + "\n" + rest;
    if t == "" {
      assert s[1..] == rest;
    } else if t == "\r" {
      assert s[2..] == rest;
    } else {
      assert s[1..] == t[1..] + "\n" + rest;
      assert t[0] in t && forall c | c in t[1..] :: c in t;
      NormalizeCounts(t[1..], rest);
      if |t| > 1 {
        StripTail(t);
        assert s[1] == t[1] && t[1] in t;
      }
      assert Normalize(s) == [if t[0] == '\r' then '\n' else t[0]] + Normalize(s[1..]);
    }
  }

  function AllInner(lines: seq<string>): nat {
    if lines == [] then 0 else Inner(lines[0]) + AllInner(lines[1..])
  }

  lemma {:induction false} AllInnerNone(lines: seq<string>)
    requires forall l | l in lines :: '\n' !in l
    ensures AllInner(lines) == 0 <==> forall l | l in lines :: Plain(l)
    decreases |lines|
  {
    hide Inner, Plain;
    if lines != [] {
      assert lines == [lines[0]] + lines[1..];
      InnerNone(lines[0]);
      AllInnerNone(lines[1..]);
    }
  }

  lemma InnerNone(l: string)
    requires '\n' !in l
    ensures Inner(l) == 0 <==> Plain(l)
  {
    CountNone(StripCR(l), '\r');
  }

  /** For every text of lines: a row more than there are lines, and one more for every carriage
      return inside a line. */
  lemma RowsAreCounted(lines: seq<string>)
    requires forall l | l in lines :: '\n' !in l
    ensures |ReviewRows(Terminated(lines))| == |lines| + 1 + AllInner(lines)
  {
    hide ReadLine, Normalize, Split;
    TerminatedCounts(lines);
    var pieces := Split(Normalize(Terminated(lines)));
    SplitCounts(Normalize(Terminated(lines)));
    RowsRestoreLines(None, pieces);
  }

  lemma {:induction false} TerminatedCounts(lines: seq<string>)
    requires forall l | l in lines :: '\n' !in l
    ensures Count(Normalize(Terminated(lines)), '\n') == |lines| + AllInner(lines)
    decreases |lines|
  {
    hide Normalize, Inner, Count;
    if lines == [] {
      NothingCounted();
    } else {
      assert lines[0] in lines;
      NormalizeCounts(lines[0], Terminated(lines[1..]));
      TerminatedCounts(lines[1..]);
    }
  }

  lemma NothingCounted()
    ensures Count(Normalize(Terminated([])), '\n') == 0
  {
  }

  // ----- the exact condition of the round trip -----

  predicate OneLine(c: Chunk) {
    c.Change? ==> '\n' !in c.heading && forall b | b in c.body :: !b.NoEol? ==> '\n' !in b.text
  }

  lemma PlainAfter(prefix: string, t: string)
    requires prefix != "" && '\n' !in prefix && '\r' !in prefix
    ensures Plain(prefix + t) <==> Plain(t)
  {
    assert Last(prefix) in prefix;
    StripPrefixed(prefix, t);
  }

  lemma PlainLineIff(b: BodyLine)
    ensures Plain(PrintLine(b)) <==> b.NoEol? || Plain(b.text)
  {
    if b.NoEol? {
      PlainPrintedLine(b);
    } else {
      var prefix := PrintLine(b)[..1];
      assert PrintLine(b) == prefix + b.text;
      PlainAfter(prefix, b.text);
    }
  }

  lemma {:induction false} PlainBodyIff(body: seq<BodyLine>)
    ensures (forall l | l in PrintBody(body) :: Plain(l)) <==> PlainBody(body)
    decreases |body|
  {
    hide Plain, PrintLine;
    if body != [] {
      PlainLineIff(body[0]);
      PlainBodyIff(body[1..]);
      assert body == [body[0]] + body[1..];
      var l, rest := PrintLine(body[0]), PrintBody(body[1..]);
      assert PrintBody(body) == [l] + rest;
    }
  }

  lemma PlainHeaderIff(h: Header, heading: string)
    ensures Plain(PrintHeader(h, heading)) <==> Plain(heading)
  {
    hide PrintHeader;
    HeaderFront(h, heading);
    PlainAfter(PrintHeader(h, ""), heading);
  }

  predicate AllPlain(lines: seq<string>) {
    forall l | l in lines :: Plain(l)
  }

  lemma AllPlainConcat(a: seq<string>, b: seq<string>)
    ensures AllPlain(a + b) <==> AllPlain(a) && AllPlain(b)
  {
    hide Plain;
    assert forall l | l in a :: l in a + b;
    assert forall l | l in b :: l in a + b;
  }

  lemma AllPlainOne(l: string)
    ensures AllPlain([l]) <==> Plain(l)
  {
    hide Plain;
  }

  predicate PlainChunk(c: Chunk) {
    c.Change? ==> Plain(c.heading) && PlainBody(c.body)
  }

  lemma PlainScriptFirst(script: seq<Chunk>)
    requires script != []
    ensures PlainScript(script) <==> PlainChunk(script[0]) && PlainScript(script[1..])
  {
    hide Plain, PlainBody;
    assert script == [script[0]] + script[1..];
  }

  lemma {:induction false} PrintConcat(a: seq<Hunk>, b: seq<Hunk>)
    ensures PrintHunks(a + b) == PrintHunks(a) + PrintHunks(b)
    decreases |a|
  {
    hide PrintHunk;
    if a == [] {
      assert a + b == b;
    } else {
      assert (a + b)[1..] == a[1..] + b;
      PrintConcat(a[1..], b);
    }
  }

  lemma PrintOne(h: Hunk)
    ensures PrintHunks([h]) == [h.head] + PrintBody(h.body)
  {
    assert [h][1..] == [];
  }

  lemma PlainChunkIff(c: Chunk, o: nat, n: nat)
    ensures AllPlain(PrintHunks(ChunkHunks(c, o, n))) <==> PlainChunk(c)
  {
    hide Plain, PrintHeader, HeaderOf, AllPlain, PlainBody, PrintHunks;
    if c.Change? {
      var h := HeaderOf(OldOf(c), NewOf(c), o, n);
      var head := PrintHeader(h, c.heading);
      PrintOne(Hunk(h, head, c.body));
      PlainHeaderIff(h, c.heading);
      PlainPrintedIff(c.body);
      AllPlainConcat([head], PrintBody(c.body));
      AllPlainOne(head);
    } else {
      NoScript();
    }
  }

  lemma {:induction false} PlainScriptIff(script: seq<Chunk>, o: nat, n: nat)
    ensures AllPlain(PrintHunks(Hunks(script, o, n))) <==> PlainScript(script)
    decreases |script|
  {
    hide AllPlain, PlainScript, PlainChunk, PrintHunks, ChunkHunks, OldOf, NewOf;
    if script == [] {
      NoScript();
    } else {
      var c, o', n' := script[0], o + |OldOf(script[0])|, n + |NewOf(script[0])|;
      PlainScriptIff(script[1..], o', n');
      PlainScriptFirst(script);
      PlainChunkIff(c, o, n);
      HunksUnfold(script, o, n);
      PrintConcat(ChunkHunks(c, o, n), Hunks(script[1..], o', n'));
      AllPlainConcat(PrintHunks(ChunkHunks(c, o, n)), PrintHunks(Hunks(script[1..], o', n')));
    }
  }

  lemma NoScript()
    ensures AllPlain(PrintHunks([])) && PlainScript([]) && NoFeed(PrintHunks([]))
  {
  }

  lemma PlainPrintedIff(body: seq<BodyLine>)
    ensures AllPlain(PrintBody(body)) <==> PlainBody(body)
  {
    PlainBodyIff(body);
  }

  predicate NoFeed(lines: seq<string>) {
    forall l | l in lines :: '\n' !in l
  }

  lemma {:induction false} BodyNoFeed(body: seq<BodyLine>)
    requires forall b | b in body :: !b.NoEol? ==> '\n' !in b.text
    ensures NoFeed(PrintBody(body))
    decreases |body|
  {
    if body != [] {
      BodyNoFeed(body[1..]);
      assert body[0] in body;
      var l := PrintLine(body[0]);
      assert '\n' !in l;
      hide PrintLine;
    }
  }

  lemma NoFeedConcat(a: seq<string>, b: seq<string>)
    requires NoFeed(a) && NoFeed(b)
    ensures NoFeed(a + b)
  {
  }

  lemma NoFeedOne(l: string)
    requires '\n' !in l
    ensures NoFeed([l])
  {
  }

  lemma ChunkNoFeed(c: Chunk, o: nat, n: nat)
    requires OneLine(c)
    ensures NoFeed(PrintHunks(ChunkHunks(c, o, n)))
  {
    hide PrintHeader, HeaderOf, NoFeed, PrintHunks;
    if c.Change? {
      var h := HeaderOf(OldOf(c), NewOf(c), o, n);
      var head := PrintHeader(h, c.heading);
      PrintOne(Hunk(h, head, c.body));
      HeaderFront(h, c.heading);
      NoFeedOne(head);
      BodyNoFeed(c.body);
      NoFeedConcat([head], PrintBody(c.body));
    } else {
      NoScript();
    }
  }

  lemma {:induction false} ScriptNoFeed(script: seq<Chunk>, o: nat, n: nat)
    requires forall c | c in script :: OneLine(c)
    ensures NoFeed(PrintHunks(Hunks(script, o, n)))
    decreases |script|
  {
    hide NoFeed, PrintHunks, ChunkHunks, OldOf, NewOf, OneLine;
    if script == [] {
      NoScript();
    } else {
      var c, o', n' := script[0], o + |OldOf(script[0])|, n + |NewOf(script[0])|;
      ScriptNoFeed(script[1..], o', n');
      ChunkNoFeed(c, o, n);
      HunksUnfold(script, o, n);
      PrintConcat(ChunkHunks(c, o, n), Hunks(script[1..], o', n'));
      NoFeedConcat(PrintHunks(ChunkHunks(c, o, n)), PrintHunks(Hunks(script[1..], o', n')));
    }
  }

  lemma {:induction false} RowsPerLine(hunks: seq<Hunk>)
    ensures |AllRows(hunks)| == |PrintHunks(hunks)|
    decreases |hunks|
  {
    if hunks != [] {
      BodyRowsPerLine(At(hunks[0].header.oldStart, hunks[0].header.newStart), hunks[0].body);
      RowsPerLine(hunks[1..]);
    }
  }

  lemma {:induction false} BodyRowsPerLine(at: At, body: seq<BodyLine>)
    ensures |BodyRows(at, body)| == |PrintBody(body)|
    decreases |body|
  {
    if body != [] {
      BodyRowsPerLine(Next(at, body[0]), body[1..]);
    }
  }

  lemma {:induction false} MetaPerLine(lines: seq<string>)
    ensures |MetaRows(lines)| == |lines|
    decreases |lines|
  {
    if lines != [] {
      MetaPerLine(lines[1..]);
    }
  }

  /** For any script of single lines: what is printed is read back as the rows of its hunks if and
      only if no line of it holds a carriage return but at its end. A carriage return inside a line
      makes two rows of it (RowsAreCounted). */
  lemma ReviewRoundTripIff(preamble: seq<string>, script: seq<Chunk>)
    requires forall l | l in preamble :: '\n' !in l && ReadHeader(StripCR(l), true).None?
    requires forall c | c in script :: OneLine(c)
    ensures var hunks := Hunks(script, 0, 0);
            ReviewRows(Terminated(preamble + PrintHunks(hunks))) == MetaRows(preamble) + AllRows(hunks) + [Row(Meta, "", None, None)] <==>
              AllPlain(preamble) && PlainScript(script)
  {
    hide ReadHeader, StripCR, Hunks, PrintHunks, ReviewRows, Plain, OneLine, PlainBody;
    var hunks := Hunks(script, 0, 0);
    var lines := preamble + PrintHunks(hunks);
    ScriptNoFeed(script, 0, 0);
    MetaPerLine(preamble);
    RowsPerLine(hunks);
    RowsAreCounted(lines);
    AllInnerNone(lines);
    AllPlainConcat(preamble, PrintHunks(hunks));
    PlainScriptIff(script, 0, 0);
    if AllPlain(preamble) && PlainScript(script) {
      ReviewRoundTrip(preamble, script);
    }
  }
}
