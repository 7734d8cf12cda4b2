/** What the rows of a process show, said without the rendering: what is kept of a line, which text a
    stream has written, and what rows without output say. */
module ProcessSays {
  import opened Wrappers
  import opened Text
  import opened ProcessLog
  import opened ProcessRows

  // ----- what is kept of a line -----

  predicate AllCR(cells: seq<Cell>) {
    forall i | 0 <= i < |cells| :: cells[i].c == '\r'
  }

  predicate NoCR(cells: seq<Cell>) {
    forall i | 0 <= i < |cells| :: cells[i].c != '\r'
  }

  /** The line is something overwritten that ends in a carriage return, or nothing; then what is kept,
      which has none; then carriage returns only. */
  predicate IsKept(line: seq<Cell>, overwritten: seq<Cell>, kept: seq<Cell>, tail: seq<Cell>) {
    && line == overwritten + kept + tail && NoCR(kept) && AllCR(tail)
    && (overwritten != [] ==> kept != [] && Last(overwritten).c == '\r')
  }

  lemma {:induction false} DropsReturns(line: seq<Cell>, tail: seq<Cell>)
    requires AllCR(tail) && (line == [] || Last(line).c != '\r')
    ensures DropCRs(line + tail) == line
    decreases |tail|
  {
    var all := line + tail;
    if tail == [] {
      assert all == line;
    } else {
      assert Last(all) == Last(tail) && Front(all) == line + Front(tail);
      DropsReturns(line, Front(tail));
    }
  }

  lemma {:induction false} TakesKept(overwritten: seq<Cell>, kept: seq<Cell>)
    requires NoCR(kept) && (overwritten != [] ==> Last(overwritten).c == '\r')
    ensures AfterCR(overwritten + kept) == kept
    decreases |kept|
  {
    var all := overwritten + kept;
    if kept == [] {
      assert all == overwritten;
    } else {
      assert Last(all) == Last(kept) && Front(all) == overwritten + Front(kept);
      TakesKept(overwritten, Front(kept));
    }
  }

  lemma {:induction false} DroppedAre(line: seq<Cell>) returns (tail: seq<Cell>)
    ensures AllCR(tail) && line == DropCRs(line) + tail && (DropCRs(line) == [] || Last(DropCRs(line)).c != '\r')
    decreases |line|
  {
    tail := [];
    if line != [] && Last(line).c == '\r' {
      var front := DroppedAre(Front(line));
      tail := front + [Last(line)];
      assert line == Front(line) + [Last(line)];
    }
  }

  lemma {:induction false} OverwrittenIs(line: seq<Cell>) returns (overwritten: seq<Cell>)
    ensures line == overwritten + AfterCR(line) && NoCR(AfterCR(line)) && (overwritten != [] ==> Last(overwritten).c == '\r')
    decreases |line|
  {
    overwritten := line;
    if line != [] && Last(line).c != '\r' {
      overwritten := OverwrittenIs(Front(line));
      assert line == Front(line) + [Last(line)];
    }
  }

  /** Of a line is kept what stands after its last carriage return, those at its very end not counted; and
      nothing else is. */
  lemma KeptIff(line: seq<Cell>, kept: seq<Cell>)
    ensures Kept(line) == kept <==> exists overwritten, tail :: IsKept(line, overwritten, kept, tail)
  {
    if Kept(line) == kept {
      var tail := DroppedAre(line);
      var overwritten := OverwrittenIs(DropCRs(line));
      assert overwritten != [] && kept == [] ==> DropCRs(line) == overwritten;
      assert IsKept(line, overwritten, kept, tail);
    }
    forall overwritten, tail | IsKept(line, overwritten, kept, tail) ensures Kept(line) == kept {
      var body := overwritten + kept;
      assert kept != [] ==> Last(body) == Last(kept);
      DropsReturns(body, tail);
      TakesKept(overwritten, kept);
    }
  }

  predicate OneLine(cells: seq<Cell>) {
    forall i | 0 <= i < |cells| :: cells[i].c != '\n'
  }

  /** The rendering goes line by line, and every line feed stays. */
  lemma LineByLine(line: seq<Cell>, feed: Cell, rest: seq<Cell>)
    requires OneLine(line) && feed.c == '\n'
    ensures Rendered(line) == Kept(line)
    ensures Rendered(line + ([feed] + rest)) == Kept(line) + ([feed] + Rendered(rest))
  {
    hide Kept;
    var cells := line + ([feed] + rest);
    assert cells[|line|] == feed && forall i | 0 <= i < |line| :: cells[i] == line[i];
    assert FirstNewline(cells) == |line|;
    assert cells[..|line|] == line && cells[|line| + 1..] == rest;
  }

  // ----- what a stream has written, and what other rows say -----

  /** All texts of the stream, one after the other. */
  function Written(entries: seq<Entry>, s: Stream): string {
    if entries == [] then "" else Written(Front(entries), s) + if Last(entries).stream == s then Last(entries).text else ""
  }

  /** Everything that is written to standard output, standard error or the terminal is output of that
      stream; a status entry is none. */
  lemma {:induction false} OutputIsWritten(entries: seq<Entry>, s: Stream)
    ensures Raw(entries, s) == if s == Status then "" else Written(entries, s)
    decreases |entries|
  {
    if entries != [] {
      OutputIsWritten(Front(entries), s);
    }
  }

  /** A status entry says its text; an entry without text, of whatever stream, its stream and its state. */
  lemma OthersSay(e: Entry)
    ensures IsOutput(e) <==> e.stream != Status && e.text != ""
    ensures e.text != "" ==> StatusText(e) == e.text
    ensures var state := if e.state.Some? then e.state.value else "";
            e.text == "" ==>
              StatusText(e) == (match e.stream
                                case Stdout => "[stdout] "
                                case Stderr => "[stderr] "
                                case Terminal => "[terminal] "
                                case Status => "[status] ") + state
  {
  }
}
