/** appendProcessText and projectProcessLogRows of ChatTimeline.tsx: process output is shown one
    row an entry, and a carriage return takes back what rows already shown hold of the line. */
module ProcessLog {
  import opened Text

  // ----- the screen as a batch computation over the whole output -----

  /** A character and the row, of its stream's rows, that brought it. */
  datatype Cell = Cell(c: char, row: nat)

  function Tag(text: string, row: nat): (cells: seq<Cell>)
    ensures |cells| == |text|
    ensures forall i | 0 <= i < |text| :: cells[i] == Cell(text[i], row)
  {
    seq(|text|, i requires 0 <= i < |text| => Cell(text[i], row))
  }

  /** A line without the carriage returns at its end. */
  function DropCRs(line: seq<Cell>): seq<Cell> {
    if line != [] && Last(line).c == '\r' then DropCRs(Front(line)) else line
  }

  /** What follows the last carriage return. */
  function AfterCR(line: seq<Cell>): seq<Cell> {
    if line == [] || Last(line).c == '\r' then [] else AfterCR(Front(line)) + [Last(line)]
  }

  function Kept(line: seq<Cell>): seq<Cell> {
    AfterCR(DropCRs(line))
  }

  function FirstNewline(cells: seq<Cell>): (i: int)
    ensures -1 <= i < |cells|
    ensures i >= 0 ==> cells[i].c == '\n' && forall k | 0 <= k < i :: cells[k].c != '\n'
    ensures i < 0 ==> forall k | 0 <= k < |cells| :: cells[k].c != '\n'
  {
    if cells == [] then -1
    else if cells[0].c == '\n' then 0
    else
      var r := FirstNewline(cells[1..]);
      assert forall k | 1 <= k < |cells| :: cells[k] == cells[1..][k - 1];
      if r < 0 then -1 else r + 1
  }

  /** Line by line: what is kept, and the line feed. */
  function Rendered(cells: seq<Cell>): seq<Cell> {
    var i := FirstNewline(cells);
    if i < 0 then Kept(cells) else Kept(cells[..i]) + ([cells[i]] + Rendered(cells[i + 1..]))
  }

  // ----- the screen as the code computes it, one character at a time -----

  /** The ended lines, the line under way, and whether a carriage return waits at its end. */
  datatype Screen = Screen(done: seq<Cell>, line: seq<Cell>, pending: bool)

  const BLANK := Screen([], [], false)

  function Feed(s: Screen, cell: Cell): Screen {
    if cell.c == '\n' then Screen(s.done + s.line + [cell], [], false)
    else if cell.c == '\r' then s.(pending := true)
    else Screen(s.done, (if s.pending then [] else s.line) + [cell], false)
  }

  function Scan(s: Screen, cells: seq<Cell>): Screen
    decreases |cells|
  {
    if cells == [] then s else Feed(Scan(s, Front(cells)), Last(cells))
  }

  lemma {:induction false} ScanConcat(s: Screen, a: seq<Cell>, b: seq<Cell>)
    ensures Scan(s, a + b) == Scan(Scan(s, a), b)
    decreases |b|
  {
    if b == [] {
      assert a + b == a;
    } else {
      assert Front(a + b) == a + Front(b) && Last(a + b) == Last(b);
      ScanConcat(s, a, Front(b));
    }
  }

  lemma {:induction false} ScanLine(done: seq<Cell>, line: seq<Cell>)
    requires forall k | 0 <= k < |line| :: line[k].c != '\n'
    ensures Scan(Screen(done, [], false), line)
         == Screen(done, Kept(line), line != [] && Last(line).c == '\r')
    decreases |line|
  {
    hide Kept;
    if line == [] {
      assert Kept([]) == [] by {
        KeptNothing();
      }
    } else {
      ScanLine(done, Front(line));
      KeptGrow(Front(line), Last(line));
      assert Front(line) + [Last(line)] == line;
    }
  }

  lemma KeptNothing()
    ensures Kept([]) == []
  {
  }

  lemma KeptGrow(line: seq<Cell>, cell: Cell)
    ensures Kept(line + [cell]) ==
      if cell.c == '\r' then Kept(line)
      else if line != [] && Last(line).c == '\r' then [cell]
      else Kept(line) + [cell]
  {
    var grown := line + [cell];
    assert Front(grown) == line && Last(grown) == cell;
    if cell.c != '\r' {
      assert DropCRs(grown) == grown;
      assert AfterCR(grown) == AfterCR(line) + [cell];
      if line == [] || Last(line).c == '\r' {
        assert AfterCR(line) == [] && [] + [cell] == [cell];
      }
    }
  }

  /** The incremental screen shows exactly the batch rendering. */
  lemma {:induction false} ScanRenders(done: seq<Cell>, cells: seq<Cell>)
    ensures var s := Scan(Screen(done, [], false), cells);
            s.done + s.line == done + Rendered(cells)
    decreases |cells|
  {
    hide Kept, Scan;
    var i := FirstNewline(cells);
    if i < 0 {
      ScanLine(done, cells);
    } else {
      var rest := cells[i + 1..];
      var d := done + Kept(cells[..i]) + [cells[i]];
      ScanFirstLine(done, cells, i);
      ScanRenders(d, rest);
      Assoc(done, Kept(cells[..i]), [cells[i]]);
      Assoc(done, Kept(cells[..i]) + [cells[i]], Rendered(rest));
      Assoc(Kept(cells[..i]), [cells[i]], Rendered(rest));
    }
  }

  lemma ScanFirstLine(done: seq<Cell>, cells: seq<Cell>, i: nat)
    requires i == FirstNewline(cells)
    ensures Scan(Screen(done, [], false), cells)
         == Scan(Screen(done + Kept(cells[..i]) + [cells[i]], [], false), cells[i + 1..])
  {
    hide Kept, Scan;
    var start, line, rest := Screen(done, [], false), cells[..i], cells[i + 1..];
    assert cells == line + ([cells[i]] + rest);
    ScanConcat(start, line, [cells[i]] + rest);
    ScanLine(done, line);
    ScanConcat(Scan(start, line), [cells[i]], rest);
    ScanOne(Scan(start, line), cells[i]);
  }

  lemma ScanOne(s: Screen, cell: Cell)
    ensures Scan(s, [cell]) == Feed(s, cell)
  {
    assert Front([cell]) == [];
  }

  // ----- rows side by side -----

  /** The cells of several rows, in order. */
  function Paint(texts: seq<string>): seq<Cell> {
    if texts == [] then [] else Paint(Front(texts)) + Tag(Last(texts), |texts| - 1)
  }

  lemma PaintNext(texts: seq<string>, text: string)
    ensures Paint(texts + [text]) == Paint(texts) + Tag(text, |texts|)
  {
    hide Tag;
    assert Front(texts + [text]) == texts;
  }

  lemma TagGrow(text: string, c: char, row: nat)
    ensures Tag(text + [c], row) == Tag(text, row) + [Cell(c, row)]
  {
  }

  lemma Assoc<T>(a: seq<T>, b: seq<T>, c: seq<T>)
    ensures a + b + c == a + (b + c)
  {
  }

  /** A character appended to the newest row is appended to all that is shown. */
  lemma PaintGrow(texts: seq<string>, grown: seq<string>, c: char)
    requires texts != [] && |grown| == |texts|
    requires forall i | 0 <= i < |texts| - 1 :: grown[i] == texts[i]
    requires Last(grown) == Last(texts) + [c]
    ensures Paint(grown) == Paint(texts) + [Cell(c, |texts| - 1)]
  {
    hide Paint, Tag;
    var front := Front(texts);
    assert texts == front + [Last(texts)] && grown == front + [Last(grown)];
    PaintNext(front, Last(texts));
    PaintNext(front, Last(grown));
    TagGrow(Last(texts), c, |front|);
    Assoc(Paint(front), Tag(Last(texts), |front|), [Cell(c, |front|)]);
  }

  lemma PaintEmptyRow(texts: seq<string>)
    ensures Paint(texts + [""]) == Paint(texts)
  {
    hide Paint;
    PaintNext(texts, "");
    assert Paint(texts) + [] == Paint(texts);
  }

  /** The loop of the inner closure `clearCurrentLine`. */
  method CutBack(parts: seq<Part>, ghost rows: seq<Row>)
    requires forall j | 0 <= j < |parts| :: parts[j].row in rows && parts[j].start <= |parts[j].row.text|
    requires forall i, j | 0 <= i < j < |parts| :: parts[i].row != parts[j].row
    modifies rows
    ensures forall j | 0 <= j < |parts| :: parts[j].row.text == old(parts[j].row.text)[..parts[j].start]
    ensures forall row | row in rows && !InParts(parts, row) :: row.text == old(row.text)
  {
    for k := 0 to |parts|
      invariant forall j | 0 <= j < k :: parts[j].row.text == old(parts[j].row.text)[..parts[j].start]
      invariant forall j | k <= j < |parts| :: parts[j].row.text == old(parts[j].row.text)
      invariant forall row | row in rows && !InParts(parts, row) :: row.text == old(row.text)
    {
      parts[k].row.text := parts[k].row.text[..parts[k].start];
    }
  }

  class Row {
    const sequence: nat
    var text: string

    constructor (sequence: nat)
      ensures this.sequence == sequence && text == ""
    {
      this.sequence := sequence;
      text := "";
    }
  }

  datatype Part = Part(row: Row, start: nat)

  ghost function Texts(rows: seq<Row>): (t: seq<string>)
    reads rows
    ensures |t| == |rows| && forall i | 0 <= i < |rows| :: t[i] == rows[i].text
  {
    seq(|rows|, i requires 0 <= i < |rows| reads rows => rows[i].text)
  }

  lemma TextsGrow(rows: seq<Row>, row: Row)
    ensures Texts(rows + [row]) == Texts(rows) + [row.text]
  {
  }

  predicate Distinct(rows: seq<Row>) {
    forall i, j | 0 <= i < j < |rows| :: rows[i] != rows[j]
  }

  /** `row.text += character` on the newest row. */
  method Type(row: Row, character: char, ghost rows: seq<Row>)
    requires rows != [] && row == Last(rows) && Distinct(rows)
    modifies row
    ensures row.text == old(row.text) + [character]
    ensures Paint(Texts(rows)) == old(Paint(Texts(rows))) + [Cell(character, |rows| - 1)]
  {
    hide Paint;
    ghost var before := Texts(rows);
    row.text := row.text + [character];
    PaintGrow(before, Texts(rows), character);
  }

  predicate InParts(parts: seq<Part>, row: Row) {
    exists j | 0 <= j < |parts| :: parts[j].row == row
  }

  lemma NotInParts(parts: seq<Part>, rows: seq<Row>, row: Row)
    requires row !in rows && forall j | 0 <= j < |parts| :: parts[j].row in rows
    ensures !InParts(parts, row) && forall j | 0 <= j < |parts| :: parts[j].row != row && parts[j].row in rows + [row]
  {
  }

  /** Streams: what their rows hold is `screen`; `base` is what would be left after taking the
      line under way back. */
  class StreamProjection {
    var rawText: string
    var plainText: string
    var pendingCarriageReturn: bool
    var currentLineParts: seq<Part>
    ghost var rows: seq<Row>
    ghost var base: seq<string>
    ghost var screen: Screen

    ghost predicate PartsValid()
      reads this`currentLineParts, this`rows, rows
    {
      && Distinct(rows)
      && (forall j | 0 <= j < |currentLineParts| ::
            currentLineParts[j].row in rows && currentLineParts[j].start <= |currentLineParts[j].row.text|)
      && (forall i, j | 0 <= i < j < |currentLineParts| :: currentLineParts[i].row != currentLineParts[j].row)
      && (forall j | 0 <= j < |currentLineParts| - 1 :: currentLineParts[j].row != Last(rows))
    }

    ghost predicate BaseValid()
      reads this`currentLineParts, this`rows, this`base, rows
      requires PartsValid()
    {
      && |base| == |rows|
      && (forall i, j | 0 <= i < |rows| && 0 <= j < |currentLineParts| && currentLineParts[j].row == rows[i] ::
            base[i] == rows[i].text[..currentLineParts[j].start])
      && (forall i | 0 <= i < |rows| && !InParts(currentLineParts, rows[i]) :: base[i] == rows[i].text)
    }

    ghost predicate Valid()
      reads this`currentLineParts, this`pendingCarriageReturn, this`rows, this`base, this`screen, rows
    {
      && PartsValid() && BaseValid()
      && screen.pending == pendingCarriageReturn
      && Paint(base) == screen.done
      && Paint(Texts(rows)) == screen.done + screen.line
    }

    constructor ()
      ensures Valid() && fresh(this) && rows == [] && rawText == "" && plainText == "" && screen == BLANK
    {
      rawText, plainText, pendingCarriageReturn, currentLineParts := "", "", false, [];
      rows, base, screen := [], [], BLANK;
    }

    /** A further row of the stream, still empty. */
    ghost method Enter(row: Row)
      requires Valid() && row !in rows && row.text == ""
      modifies this
      ensures Valid() && rows == old(rows) + [row] && screen == old(screen)
      ensures rawText == old(rawText) && plainText == old(plainText)
    {
      hide Paint, InParts, Texts;
      PaintEmptyRow(base);
      PaintEmptyRow(Texts(rows));
      TextsGrow(rows, row);
      ghost var before := rows;
      rows, base := rows + [row], base + [""];
      assert rows[|before|] == row && forall k | 0 <= k < |before| :: rows[k] == before[k];
      NotInParts(currentLineParts, before, row);
      assert PartsValid();
      assert BaseValid();
    }

    method TakeBack()
      requires Valid()
      modifies rows
      ensures Distinct(rows) && Texts(rows) == base && Paint(base) == screen.done
    {
      hide Paint;
      CutBack(currentLineParts, rows);
      forall i | 0 <= i < |rows| ensures rows[i].text == base[i] {
        if InParts(currentLineParts, rows[i]) {
          var j :| 0 <= j < |currentLineParts| && currentLineParts[j].row == rows[i];
          assert old(base[i] == rows[i].text[..currentLineParts[j].start]);
        }
      }
    }

    /** The inner closure: every part's row is cut back to where the line began in it. */
    method ClearCurrentLine()
      requires Valid()
      modifies this, rows
      ensures Valid() && rows == old(rows)
      ensures screen == old(screen).(line := [], pending := false)
      ensures rawText == old(rawText) && plainText == old(plainText)
    {
      hide Valid, PartsValid, BaseValid, Paint, Texts, InParts;
      TakeBack();
      ForgetParts();
    }

    method ForgetParts()
      requires Distinct(rows) && Texts(rows) == base && Paint(base) == screen.done
      modifies this`currentLineParts, this`pendingCarriageReturn, this`screen
      ensures Valid() && screen == old(screen).(line := [], pending := false)
    {
      hide Paint;
      assert screen.done + [] == screen.done;
      currentLineParts := [];
      pendingCarriageReturn := false;
      screen := screen.(line := [], pending := false);
    }

    method HoldCarriageReturn()
      requires Valid()
      modifies this`pendingCarriageReturn, this`screen
      ensures Valid() && screen == old(screen).(pending := true)
    {
      hide Paint;
      pendingCarriageReturn := true;
      screen := screen.(pending := true);
    }

    /** The line under way goes on in the newest row. */
    method BeginPart(row: Row)
      requires Valid() && rows != [] && row == Last(rows)
      requires currentLineParts == [] || Last(currentLineParts).row != row
      modifies this`currentLineParts
      ensures Valid() && currentLineParts != [] && Last(currentLineParts).row == row
    {
      hide Paint;
      ghost var before := currentLineParts;
      assert !InParts(before, row);
      currentLineParts := currentLineParts + [Part(row, |row.text|)];
      forall i | 0 <= i < |rows| && InParts(before, rows[i]) ensures InParts(currentLineParts, rows[i]) {
        var j :| 0 <= j < |before| && before[j].row == rows[i];
        assert currentLineParts[j].row == rows[i];
      }
    }

    method GrowLine(row: Row, character: char)
      requires PartsValid() && BaseValid() && rows != [] && row == Last(rows)
      requires currentLineParts != [] && Last(currentLineParts).row == row
      modifies row
      ensures PartsValid() && BaseValid()
      ensures Paint(Texts(rows)) == old(Paint(Texts(rows))) + [Cell(character, |rows| - 1)]
    {
      hide Paint, Texts;
      Type(row, character, rows);
    }

    /** An ordinary character, when the line under way is known in the newest row. */
    method Extend(row: Row, character: char)
      requires Valid() && rows != [] && row == Last(rows) && !pendingCarriageReturn
      requires character != '\n' && character != '\r'
      requires currentLineParts != [] && Last(currentLineParts).row == row
      modifies this`screen, row
      ensures Valid() && screen == Feed(old(screen), Cell(character, |rows| - 1))
    {
      hide Paint, Texts, PartsValid, BaseValid, InParts;
      GrowLine(row, character);
      Assoc(screen.done, screen.line, [Cell(character, |rows| - 1)]);
      screen := Feed(screen, Cell(character, |rows| - 1));
    }

    method EndLine(row: Row)
      requires Valid() && rows != [] && row == Last(rows)
      modifies this, row
      ensures Valid() && rows == old(rows) && screen == Feed(old(screen), Cell('\n', |rows| - 1))
      ensures rawText == old(rawText) && plainText == old(plainText)
    {
      assert Distinct(rows);
      hide Paint, Texts, Distinct, PartsValid, BaseValid;
      Type(row, '\n', rows);
      LineEnded();
    }

    method LineEnded()
      requires Distinct(rows) && rows != []
      requires Paint(Texts(rows)) == screen.done + screen.line + [Cell('\n', |rows| - 1)]
      modifies this`currentLineParts, this`pendingCarriageReturn, this`base, this`screen
      ensures Valid() && screen == Feed(old(screen), Cell('\n', |rows| - 1))
    {
      hide Paint;
      screen := Feed(screen, Cell('\n', |rows| - 1));
      assert screen.done + [] == screen.done;
      currentLineParts := [];
      pendingCarriageReturn := false;
      base := Texts(rows);
    }

    /** The loop body: one character of the output. */
    method AppendCharacter(row: Row, character: char)
      requires Valid() && rows != [] && row == Last(rows)
      modifies this, rows
      ensures Valid() && rows == old(rows) && screen == Feed(old(screen), Cell(character, |rows| - 1))
      ensures rawText == old(rawText) && plainText == old(plainText)
    {
      hide Paint, PartsValid, BaseValid, Texts, InParts;
      if pendingCarriageReturn {
        if character == '\n' {
          EndLine(row);
          return;
        }
        if character == '\r' {
          return;
        }
        ClearCurrentLine();
      }
      if character == '\r' {
        HoldCarriageReturn();
        return;
      }
      if character == '\n' {
        EndLine(row);
        return;
      }
      if currentLineParts == [] || Last(currentLineParts).row != row {
        BeginPart(row);
      }
      Extend(row, character);
    }

    /** appendProcessText: only this stream's rows are written. */
    method Append(row: Row, text: string)
      requires Valid() && rows != [] && row == Last(rows)
      modifies this, rows
      ensures Valid() && rows == old(rows) && screen == Scan(old(screen), Tag(text, |rows| - 1))
      ensures rawText == old(rawText) && plainText == old(plainText)
    {
      for i := 0 to |text|
        invariant Valid() && rows == old(rows) && screen == Scan(old(screen), Tag(text[..i], |rows| - 1))
        invariant rawText == old(rawText) && plainText == old(plainText)
      {
        AppendCharacter(row, text[i]);
        assert Front(Tag(text[..i + 1], |rows| - 1)) == Tag(text[..i], |rows| - 1);
      }
      assert text[..|text|] == text;
    }
  }
}
