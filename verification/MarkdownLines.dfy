/** splitMarkdownLines of safe-markdown.tsx: the lines of a source, with their places in it. */
module MarkdownLines {

  /** `text` begins at `start`; the next line begins at `next`. */
  datatype Line = Line(text: string, start: nat, next: nat)

  /** The length of the line break at `i`: a carriage return takes a line feed after it along. */
  function BreakLen(s: string, i: nat): (n: nat)
    ensures i + n <= |s| || n == 0
  {
    if i >= |s| then 0
    else if s[i] == '\r' then (if i + 1 < |s| && s[i + 1] == '\n' then 2 else 1)
    else if s[i] == '\n' then 1
    else 0
  }

  predicate Unbroken(text: string) {
    '\r' !in text && '\n' !in text
  }

  function NextBreak(s: string, from: nat): (i: nat)
    requires from <= |s|
    ensures from <= i <= |s| && (i < |s| ==> BreakLen(s, i) > 0)
    ensures forall k | from <= k < i :: s[k] != '\r' && s[k] != '\n'
    decreases |s| - from
  {
    if from == |s| || BreakLen(s, from) > 0 then from else NextBreak(s, from + 1)
  }

  function LinesFrom(s: string, start: nat): (lines: seq<Line>)
    requires start <= |s|
    ensures lines != []
    decreases |s| - start
  {
    var i := NextBreak(s, start);
    var n := BreakLen(s, i);
    if i == |s| then [Line(s[start..], start, |s|)] else [Line(s[start..i], start, i + n)] + LinesFrom(s, i + n)
  }

  // ----- tiling -----

  /** The line is a piece of the source without line breaks, followed by one line break, or by
      the end of the source. */
  predicate LineOk(s: string, l: Line) {
    && l.start + |l.text| <= l.next <= |s|
    && l.text == s[l.start..l.start + |l.text|] && Unbroken(l.text)
    && l.next == l.start + |l.text| + BreakLen(s, l.start + |l.text|)
  }

  /** The lines follow one another without gap from `start` to the end. */
  predicate Tiles(s: string, start: nat, lines: seq<Line>) {
    && lines != [] && lines[0].start == start && lines[|lines| - 1].next == |s|
    && (forall i | 0 <= i < |lines| :: LineOk(s, lines[i]))
    && (forall i | 0 < i < |lines| :: lines[i].start == lines[i - 1].next)
  }

  lemma TilesMore(s: string, line: Line, rest: seq<Line>)
    requires LineOk(s, line) && Tiles(s, line.next, rest)
    ensures Tiles(s, line.start, [line] + rest)
  {
    hide LineOk;
    var lines := [line] + rest;
    assert forall k | 0 < k < |lines| :: lines[k] == rest[k - 1];
  }

  lemma CutLine(s: string, start: nat)
    requires start <= |s|
    ensures var i := NextBreak(s, start);
            LineOk(s, Line(s[start..i], start, i + BreakLen(s, i)))
  {
    var i := NextBreak(s, start);
    var text := s[start..i];
    forall k | 0 <= k < |text| ensures text[k] != '\r' && text[k] != '\n' {
      assert text[k] == s[start + k];
    }
  }

  lemma {:induction false} LinesTile(s: string, start: nat)
    requires start <= |s|
    ensures Tiles(s, start, LinesFrom(s, start))
    decreases |s| - start
  {
    hide LineOk, BreakLen;
    var i := NextBreak(s, start);
    CutLine(s, start);
    if i == |s| {
      assert BreakLen(s, i) == 0 by {
        NoBreakAtEnd(s);
      }
      assert s[start..i] == s[start..];
    } else {
      var next := i + BreakLen(s, i);
      LinesTile(s, next);
      TilesMore(s, Line(s[start..i], start, next), LinesFrom(s, next));
    }
  }

  lemma NoBreakAtEnd(s: string)
    ensures BreakLen(s, |s|) == 0
  {
  }

  /** The lines and their breaks put together. */
  function Joined(s: string, lines: seq<Line>): string
    requires forall l | l in lines :: LineOk(s, l)
  {
    if lines == [] then "" else assert LineOk(s, lines[0]); s[lines[0].start..lines[0].next] + Joined(s, lines[1..])
  }

  /** Tiling lines are the source, byte for byte. */
  lemma {:induction false} TilesJoin(s: string, start: nat, lines: seq<Line>)
    requires start <= |s| && Tiles(s, start, lines)
    ensures Joined(s, lines) == s[start..]
    decreases |lines|
  {
    assert LineOk(s, lines[0]);
    if |lines| == 1 {
      assert lines[1..] == [];
    } else {
      var rest := lines[1..];
      TilesRest(s, start, lines);
      hide LineOk, Tiles;
      TilesJoin(s, lines[0].next, rest);
      assert s[start..] == s[start..lines[0].next] + s[lines[0].next..];
    }
  }

  lemma TilesRest(s: string, start: nat, lines: seq<Line>)
    requires |lines| > 1 && Tiles(s, start, lines)
    ensures Tiles(s, lines[0].next, lines[1..]) && start <= lines[0].next <= |s|
  {
    assert forall k | 0 <= k < |lines[1..]| :: lines[1..][k] == lines[k + 1];
    assert LineOk(s, lines[0]) && lines[1].start == lines[0].next;
    hide LineOk;
  }

  /** The loop over the matches of the separator. */
  method SplitMarkdownLines(source: string) returns (lines: seq<Line>)
    ensures lines == LinesFrom(source, 0)
    ensures Tiles(source, 0, lines) && Joined(source, lines) == source
  {
    hide LinesFrom, Tiles, Joined, BreakLen;
    lines := [];
    var start := 0;
    var found := NextBreak(source, start);
    while found < |source|
      invariant start <= |source| && found == NextBreak(source, start)
      invariant lines + LinesFrom(source, start) == LinesFrom(source, 0)
      decreases |source| - start
    {
      var next := found + BreakLen(source, found);
      LinesUnfold(source, start);
      Regroup(lines, [Line(source[start..found], start, next)], LinesFrom(source, next));
      lines := lines + [Line(source[start..found], start, next)];
      start := next;
      found := NextBreak(source, start);
    }
    LinesUnfold(source, start);
    lines := lines + [Line(source[start..], start, |source|)];
    LinesTile(source, 0);
    TilesJoin(source, 0, lines);
    assert source[0..] == source;
  }

  lemma LinesUnfold(s: string, start: nat)
    requires start <= |s|
    ensures var i := NextBreak(s, start);
            LinesFrom(s, start) == if i == |s| then [Line(s[start..], start, |s|)]
                                   else [Line(s[start..i], start, i + BreakLen(s, i))] + LinesFrom(s, i + BreakLen(s, i))
  {
  }

  lemma Regroup(a: seq<Line>, b: seq<Line>, c: seq<Line>)
    ensures a + (b + c) == (a + b) + c
  {
  }

  // ----- finding a line -----

  lemma {:induction false} NextBreakIs(s: string, from: nat, i: nat)
    requires from <= i <= |s| && (i < |s| ==> BreakLen(s, i) > 0)
    requires forall k | from <= k < i :: s[k] != '\r' && s[k] != '\n'
    ensures NextBreak(s, from) == i
    decreases i - from
  {
    if from < i {
      assert s[from] != '\r' && s[from] != '\n';
      NextBreakIs(s, from + 1, i);
    }
  }

  lemma FirstLine(s: string, start: nat, text: string)
    requires start + |text| <= |s| && s[start..start + |text|] == text && Unbroken(text)
    requires start + |text| < |s| ==> BreakLen(s, start + |text|) > 0
    ensures var end := start + |text|;
            LinesFrom(s, start) ==
              if end == |s| then [Line(text, start, |s|)]
              else [Line(text, start, end + BreakLen(s, end))] + LinesFrom(s, end + BreakLen(s, end))
  {
    var end := start + |text|;
    PlainUpTo(s, start, text);
    NextBreakIs(s, start, end);
    hide NextBreak, BreakLen, LinesFrom;
    LinesUnfold(s, start);
    assert end == |s| ==> s[start..] == text;
  }

  lemma PlainUpTo(s: string, start: nat, text: string)
    requires start + |text| <= |s| && s[start..start + |text|] == text && Unbroken(text)
    ensures forall k | start <= k < start + |text| :: s[k] != '\r' && s[k] != '\n'
  {
    forall k | start <= k < start + |text| ensures s[k] != '\r' && s[k] != '\n' {
      assert s[k] == text[k - start] && text[k - start] in text;
    }
  }
}
