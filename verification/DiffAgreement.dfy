/** The two diff readers agree: on every well-formed multi-file git diff the counts of
    parseWorkspaceDiffStats are the numbers of added and removed rows that
    parseUnifiedDiffLines yields for the sections splitDiffFiles cuts. */
module DiffAgreement {
  import opened Wrappers
  import opened Text
  import opened DiffHeader
  import R = ReviewDiff
  import S = DiffStats

  // ----- cutting a diff into its files -----

  /** The lines before the first "diff --git" line, and one run of lines from each such line on. */
  function Cut(lines: seq<string>): (seq<string>, seq<seq<string>>) {
    if lines == [] then ([], [])
    else
      var (before, chunks) := Cut(lines[1..]);
      if S.FILE_HEAD <= lines[0] then ([], [[lines[0]] + before] + chunks) else ([lines[0]] + before, chunks)
  }

  datatype Chunk = Chunk(paths: seq<string>, text: string, truncated: bool)

  function FileChunks(rawPaths: S.PathReader, chunks: seq<seq<string>>, truncated: bool): seq<Chunk> {
    if chunks == [] then []
    else
      var c := chunks[0];
      [Chunk(if c == [] then [] else S.SectionPaths(rawPaths, c[0]), Join(c), truncated && |chunks| == 1)]
      + FileChunks(rawPaths, chunks[1..], truncated)
  }

  function SplitDiffFiles(rawPaths: S.PathReader, text: string, truncated: bool): seq<Chunk> {
    var (before, chunks) := Cut(Split(R.Normalize(text)));
    if chunks == [] then (if IsBlank(text) then [] else [Chunk([], text, truncated)])
    else
      (if exists l | l in before :: !IsBlank(l) then [Chunk([], Join(before), false)] else [])
      + FileChunks(rawPaths, chunks, truncated)
  }

  // ----- a git diff -----

  /** One file of a git diff: its head line, the extended header lines, its hunks. */
  datatype Section = Section(head: string, extended: seq<string>, hunks: seq<R.Hunk>)

  function PrintSection(s: Section): seq<string> {
    [s.head] + (s.extended + R.PrintHunks(s.hunks))
  }

  function PrintDiff(sections: seq<Section>): seq<string> {
    if sections == [] then [] else PrintSection(sections[0]) + PrintDiff(sections[1..])
  }

  /** No line reads as a file head or a hunk header. */
  predicate NoHeads(lines: seq<string>) {
    lines == [] || (!(S.FILE_HEAD <= lines[0]) && ReadHeader(lines[0], false).None? && NoHeads(lines[1..]))
  }

  /** No line starts a file. */
  predicate NoFileHead(lines: seq<string>) {
    lines == [] || (!(S.FILE_HEAD <= lines[0]) && NoFileHead(lines[1..]))
  }

  lemma {:induction false} NoFileHeadConcat(a: seq<string>, b: seq<string>)
    requires NoFileHead(a) && NoFileHead(b)
    ensures NoFileHead(a + b)
    decreases |a|
  {
    if a == [] {
      assert a + b == b;
    } else {
      assert (a + b)[1..] == a[1..] + b;
      NoFileHeadConcat(a[1..], b);
    }
  }

  lemma {:induction false} NoHeadsNoFileHead(lines: seq<string>)
    requires NoHeads(lines)
    ensures NoFileHead(lines)
    decreases |lines|
  {
    if lines != [] {
      NoHeadsNoFileHead(lines[1..]);
    }
  }

  ghost predicate WellFormed(s: Section) {
    && S.FILE_HEAD <= s.head && '\n' !in s.head && '\r' !in s.head
    && R.Preamble(s.extended)
    && NoHeads(s.extended)
    && (forall h | h in s.hunks :: R.WellPrinted(h))
  }

  // ----- what both count -----

  function AddedIn(body: seq<R.BodyLine>): nat {
    if body == [] then 0 else (if body[0].Add? then 1 else 0) + AddedIn(body[1..])
  }

  function CutIn(body: seq<R.BodyLine>): nat {
    if body == [] then 0 else (if body[0].Cut? then 1 else 0) + CutIn(body[1..])
  }

  function AddedOf(hunks: seq<R.Hunk>): nat {
    if hunks == [] then 0 else AddedIn(hunks[0].body) + AddedOf(hunks[1..])
  }

  function CutOf(hunks: seq<R.Hunk>): nat {
    if hunks == [] then 0 else CutIn(hunks[0].body) + CutOf(hunks[1..])
  }

  function Count(rows: seq<R.Row>, kind: R.Kind): nat {
    if rows == [] then 0 else (if rows[0].kind == kind then 1 else 0) + Count(rows[1..], kind)
  }

  lemma {:induction false} CountConcat(a: seq<R.Row>, b: seq<R.Row>, kind: R.Kind)
    ensures Count(a + b, kind) == Count(a, kind) + Count(b, kind)
    decreases |a|
  {
    if a == [] {
      assert a + b == b;
    } else {
      assert (a + b)[1..] == a[1..] + b;
      CountConcat(a[1..], b, kind);
    }
  }

  // ----- the counting reader on one section -----

  /** The hunk is exhausted: either closed, or open with nothing to come. */
  predicate Idle(h: Option<S.Open>) {
    h.None? || h.value == S.Open(0, 0)
  }

  /** Between two hunks, after the counts a and d. */
  predicate Between(acc: S.Acc, base: S.Acc, a: nat, d: nat) {
    acc.result == base.result && acc.paths == base.paths && acc.additions == a && acc.deletions == d && Idle(acc.hunk)
  }

  lemma BodyLineCounts(rawPaths: S.PathReader, acc: S.Acc, b: R.BodyLine, o: nat, n: nat)
    requires acc.paths != [] && (acc.hunk == Some(S.Open(o, n)) || (o == 0 && n == 0 && Idle(acc.hunk)))
    requires b.Keep? ==> o > 0 && n > 0
    requires b.Cut? ==> o > 0
    requires b.Add? ==> n > 0
    ensures var r := S.CountLine(rawPaths, acc, R.PrintLine(b));
            var o' := if b.Keep? || b.Cut? then o - 1 else o;
            var n' := if b.Keep? || b.Add? then n - 1 else n;
            && r.result == acc.result && r.paths == acc.paths
            && r.additions == acc.additions + (if b.Add? then 1 else 0)
            && r.deletions == acc.deletions + (if b.Cut? then 1 else 0)
            && (if o' == 0 && n' == 0 then Idle(r.hunk) else r.hunk == Some(S.Open(o', n')))
  {
    hide ReadHeader;
    var line := R.PrintLine(b);
    assert line[0] in {' ', '-', '+', '\\'};
    assert S.FILE_HEAD[0] == 'd' && S.COMBINED[0] == '@';
    NoHeaderFirst(line);
  }

  lemma NoHeaderFirst(line: string)
    requires line != "" && line[0] != '@'
    ensures ReadHeader(line, false).None?
  {
    assert "@@ -"[0] == '@';
  }

  lemma {:induction false} BodyCounts(rawPaths: S.PathReader, acc: S.Acc, body: seq<R.BodyLine>)
    requires acc.paths != []
    requires var o, n := |R.OldLines(body)|, |R.NewLines(body)|;
             if o == 0 && n == 0 then Idle(acc.hunk) else acc.hunk == Some(S.Open(o, n))
    ensures Between(S.CountLines(rawPaths, acc, R.PrintBody(body)), acc, acc.additions + AddedIn(body), acc.deletions + CutIn(body))
    decreases |body|
  {
    hide S.CountLine, R.PrintLine, S.CountLines, R.PrintBody, R.OldLines, R.NewLines, AddedIn, CutIn;
    if body == [] {
      NoBody(rawPaths, acc);
    } else {
      BodyUnfold(body);
      BodyLineCounts(rawPaths, acc, body[0], |R.OldLines(body)|, |R.NewLines(body)|);
      var next := S.CountLine(rawPaths, acc, R.PrintLine(body[0]));
      PrintedUnfold(rawPaths, acc, body);
      BodyCounts(rawPaths, next, body[1..]);
    }
  }

  lemma NoBody(rawPaths: S.PathReader, acc: S.Acc)
    ensures R.OldLines([]) == [] && R.NewLines([]) == [] && AddedIn([]) == 0 && CutIn([]) == 0
    ensures S.CountLines(rawPaths, acc, R.PrintBody([])) == acc
  {
  }

  lemma BodyUnfold(body: seq<R.BodyLine>)
    requires body != []
    ensures |R.OldLines(body)| == |R.OldLines(body[1..])| + if body[0].Keep? || body[0].Cut? then 1 else 0
    ensures |R.NewLines(body)| == |R.NewLines(body[1..])| + if body[0].Keep? || body[0].Add? then 1 else 0
    ensures AddedIn(body) == AddedIn(body[1..]) + if body[0].Add? then 1 else 0
    ensures CutIn(body) == CutIn(body[1..]) + if body[0].Cut? then 1 else 0
  {
  }

  lemma PrintedUnfold(rawPaths: S.PathReader, acc: S.Acc, body: seq<R.BodyLine>)
    requires body != []
    ensures S.CountLines(rawPaths, acc, R.PrintBody(body))
         == S.CountLines(rawPaths, S.CountLine(rawPaths, acc, R.PrintLine(body[0])), R.PrintBody(body[1..]))
  {
    hide S.CountLine, R.PrintLine;
    assert R.PrintBody(body)[1..] == R.PrintBody(body[1..]);
  }

  lemma HeadOpens(rawPaths: S.PathReader, acc: S.Acc, h: R.Hunk)
    requires acc.paths != [] && R.WellPrinted(h)
    ensures var r := S.CountLine(rawPaths, acc, h.head);
            r == acc.(hunk := Some(S.Open(|R.OldLines(h.body)|, |R.NewLines(h.body)|)))
  {
    HeaderPrefix(h.head);
    hide ReadHeader;
    assert "@@ -"[0] == '@' && "@@ -"[2] == ' ';
    assert h.head[0] == '@' && h.head[2] == ' ';
    assert S.FILE_HEAD[0] == 'd' && S.COMBINED[2] == '@' && "Binary files "[0] == 'B' && "GIT binary patch"[0] == 'G';
  }

  lemma HeaderPrefix(line: string)
    ensures ReadHeader(line, false).Some? ==> "@@ -" <= line
  {
  }

  lemma HunkCounts(rawPaths: S.PathReader, acc: S.Acc, h: R.Hunk)
    requires acc.paths != [] && R.WellPrinted(h)
    ensures Between(S.CountLines(rawPaths, acc, R.PrintHunk(h.head, h.body)), acc,
                    acc.additions + AddedIn(h.body), acc.deletions + CutIn(h.body))
  {
    hide S.CountLine, ReadHeader, R.WellPrinted, R.PrintBody, AddedIn, CutIn, R.OldLines, R.NewLines;
    HeadOpens(rawPaths, acc, h);
    var next := S.CountLine(rawPaths, acc, h.head);
    BodyCounts(rawPaths, next, h.body);
    var lines := R.PrintHunk(h.head, h.body);
    assert lines[0] == h.head && lines[1..] == R.PrintBody(h.body);
  }

  lemma {:induction false} HunksCount(rawPaths: S.PathReader, acc: S.Acc, hunks: seq<R.Hunk>)
    requires acc.paths != [] && Idle(acc.hunk) && forall h | h in hunks :: R.WellPrinted(h)
    ensures Between(S.CountLines(rawPaths, acc, R.PrintHunks(hunks)), acc,
                    acc.additions + AddedOf(hunks), acc.deletions + CutOf(hunks))
    decreases |hunks|
  {
    hide S.CountLine, R.WellPrinted;
    if hunks != [] {
      var first, rest := R.PrintHunk(hunks[0].head, hunks[0].body), R.PrintHunks(hunks[1..]);
      HunkCounts(rawPaths, acc, hunks[0]);
      S.CountLinesConcat(rawPaths, acc, first, rest);
      HunksCount(rawPaths, S.CountLines(rawPaths, acc, first), hunks[1..]);
    }
  }

  lemma {:induction false} ExtendedCounts(rawPaths: S.PathReader, acc: S.Acc, lines: seq<string>)
    requires acc.paths != [] && acc.hunk.None?
    requires NoHeads(lines)
    ensures var r := S.CountLines(rawPaths, acc, lines);
            r == acc.(complete := r.complete)
    decreases |lines|
  {
    hide ReadHeader;
    if lines != [] {
      var next := S.CountLine(rawPaths, acc, lines[0]);
      assert next == acc.(complete := next.complete);
      ExtendedCounts(rawPaths, next, lines[1..]);
    }
  }

  /** Without paths the reader waits for the next file. */
  lemma {:induction false} SkipsSection(rawPaths: S.PathReader, acc: S.Acc, lines: seq<string>)
    requires acc.paths == [] && NoFileHead(lines)
    ensures S.CountLines(rawPaths, acc, lines) == acc
    decreases |lines|
  {
    if lines != [] {
      SkipsSection(rawPaths, acc, lines[1..]);
    }
  }

  lemma {:induction false} HunksHaveNoHead(hunks: seq<R.Hunk>)
    requires forall h | h in hunks :: R.WellPrinted(h)
    ensures NoFileHead(R.PrintHunks(hunks))
    decreases |hunks|
  {
    hide ReadHeader, R.PrintLine;
    if hunks != [] {
      var h := hunks[0];
      assert R.WellPrinted(h);
      HeaderPrefix(h.head);
      assert "@@ -"[0] == '@' && S.FILE_HEAD[0] == 'd';
      BodyHasNoHead(h.body);
      HunksHaveNoHead(hunks[1..]);
      assert R.PrintHunk(h.head, h.body)[1..] == R.PrintBody(h.body);
      NoFileHeadConcat(R.PrintHunk(h.head, h.body), R.PrintHunks(hunks[1..]));
    }
  }

  lemma {:induction false} BodyHasNoHead(body: seq<R.BodyLine>)
    ensures NoFileHead(R.PrintBody(body))
    decreases |body|
  {
    if body != [] {
      var line := R.PrintLine(body[0]);
      assert line[0] in {' ', '-', '+', '\\'} && S.FILE_HEAD[0] == 'd';
      BodyHasNoHead(body[1..]);
      assert R.PrintBody(body)[1..] == R.PrintBody(body[1..]);
    }
  }

  /** After one whole section: its file's paths, its counts, and what came before flushed. */
  lemma SectionCounts(rawPaths: S.PathReader, acc: S.Acc, s: Section)
    requires WellFormed(s)
    ensures var r := S.CountLines(rawPaths, acc, PrintSection(s));
            && r.result == S.Flush(acc).result && r.paths == S.SectionPaths(rawPaths, s.head)
            && (r.paths != [] ==> r.additions == AddedOf(s.hunks) && r.deletions == CutOf(s.hunks))
  {
    hide ReadHeader, R.WellPrinted, R.Preamble;
    HunksHaveNoHead(s.hunks);
    var lines := s.extended + R.PrintHunks(s.hunks);
    var start := S.CountLine(rawPaths, acc, s.head);
    assert PrintSection(s)[1..] == lines;
    if start.paths == [] {
      NoHeadsNoFileHead(s.extended);
      NoFileHeadConcat(s.extended, R.PrintHunks(s.hunks));
      SkipsSection(rawPaths, start, lines);
    } else {
      S.CountLinesConcat(rawPaths, start, s.extended, R.PrintHunks(s.hunks));
      ExtendedCounts(rawPaths, start, s.extended);
      HunksCount(rawPaths, S.CountLines(rawPaths, start, s.extended), s.hunks);
    }
  }

  function SectionShare(rawPaths: S.PathReader, s: Section, path: string, count: nat): nat {
    if path in S.SectionPaths(rawPaths, s.head) then count else 0
  }

  function SumAdded(rawPaths: S.PathReader, sections: seq<Section>, path: string): nat {
    if sections == [] then 0
    else SectionShare(rawPaths, sections[0], path, AddedOf(sections[0].hunks)) + SumAdded(rawPaths, sections[1..], path)
  }

  function SumCut(rawPaths: S.PathReader, sections: seq<Section>, path: string): nat {
    if sections == [] then 0
    else SectionShare(rawPaths, sections[0], path, CutOf(sections[0].hunks)) + SumCut(rawPaths, sections[1..], path)
  }

  lemma {:induction false} DiffCounts(rawPaths: S.PathReader, acc: S.Acc, sections: seq<Section>, path: string)
    requires S.Distinct(acc.paths) && forall s | s in sections :: WellFormed(s)
    ensures var r := S.CountLines(rawPaths, acc, PrintDiff(sections));
            && S.Distinct(r.paths)
            && S.TotalAdded(r, path) == S.TotalAdded(acc, path) + SumAdded(rawPaths, sections, path)
            && S.TotalDeleted(r, path) == S.TotalDeleted(acc, path) + SumCut(rawPaths, sections, path)
    decreases |sections|
  {
    hide WellFormed, PrintSection, AddedOf, CutOf, S.CountLine, S.Flush;
    if sections != [] {
      var first, rest := PrintSection(sections[0]), PrintDiff(sections[1..]);
      SectionCounts(rawPaths, acc, sections[0]);
      S.FlushTotals(acc, path);
      S.CountLinesConcat(rawPaths, acc, first, rest);
      DiffCounts(rawPaths, S.CountLines(rawPaths, acc, first), sections[1..], path);
    }
  }

  // ----- the review rows of one section -----

  lemma {:induction false} BodyRowCounts(at: R.At, body: seq<R.BodyLine>)
    ensures Count(R.BodyRows(at, body), R.Added) == AddedIn(body)
    ensures Count(R.BodyRows(at, body), R.Removed) == CutIn(body)
    decreases |body|
  {
    hide StripCR;
    if body != [] {
      BodyRowCounts(R.Next(at, body[0]), body[1..]);
      assert R.BodyRows(at, body)[1..] == R.BodyRows(R.Next(at, body[0]), body[1..]);
    }
  }

  lemma {:induction false} HunkRowCounts(hunks: seq<R.Hunk>)
    ensures Count(R.AllRows(hunks), R.Added) == AddedOf(hunks)
    ensures Count(R.AllRows(hunks), R.Removed) == CutOf(hunks)
    decreases |hunks|
  {
    hide StripCR, R.BodyRows;
    if hunks != [] {
      var h := hunks[0];
      var at := R.At(h.header.oldStart, h.header.newStart);
      BodyRowCounts(at, h.body);
      HunkRowCounts(hunks[1..]);
      var rows := R.HunkRows(h);
      assert rows[1..] == R.BodyRows(at, h.body);
      CountConcat(rows, R.AllRows(hunks[1..]), R.Added);
      CountConcat(rows, R.AllRows(hunks[1..]), R.Removed);
    }
  }

  lemma {:induction false} MetaRowCounts(lines: seq<string>, kind: R.Kind)
    requires kind.Added? || kind.Removed?
    ensures Count(R.MetaRows(lines), kind) == 0
    decreases |lines|
  {
    if lines != [] {
      MetaRowCounts(lines[1..], kind);
      assert R.MetaRows(lines)[1..] == R.MetaRows(lines[1..]);
    }
  }

  /** A section's stripped lines, without its head. */
  function Stripped(s: Section): seq<string> {
    StripAll(s.extended + R.PrintHunks(s.hunks))
  }

  lemma SectionRows(s: Section)
    requires WellFormed(s)
    ensures R.ReadRows(None, [s.head] + Stripped(s))
         == [R.Row(R.Meta, s.head, None, None)] + (R.MetaRows(s.extended) + R.AllRows(s.hunks))
  {
    hide ReadHeader, R.WellPrinted, R.ReadRows, R.PrintHunks, StripCR;
    R.ReadRowsCons(None, s.head, Stripped(s));
    HeadIsMeta(s.head);
    R.ReadTwoParts(None, s.extended, R.PrintHunks(s.hunks));
    R.PreambleIsRead(s.extended);
    R.HunksAreRead(None, s.hunks);
  }

  lemma HeadIsMeta(head: string)
    requires S.FILE_HEAD <= head
    ensures R.ReadLine(None, head) == (R.Row(R.Meta, head, None, None), None)
  {
    assert S.FILE_HEAD[0] == 'd' && R.NO_NEWLINE[0] == '\\';
    R.NotHeader(head);
    hide ReadHeader;
  }

  lemma SectionRowCounts(s: Section, tail: seq<string>)
    requires WellFormed(s) && (tail == [] || tail == [""])
    ensures var rows := R.ReadRows(None, [s.head] + Stripped(s) + tail);
            Count(rows, R.Added) == AddedOf(s.hunks) && Count(rows, R.Removed) == CutOf(s.hunks)
  {
    hide ReadHeader, R.WellPrinted, R.ReadLine, R.PrintHunks, StripCR, R.AllRows, R.MetaRows, Stripped;
    var lines := [s.head] + Stripped(s);
    SectionRows(s);
    var rows := R.ReadRows(None, lines);
    forall kind | kind == R.Added || kind == R.Removed
      ensures Count(R.ReadRows(None, lines + tail), kind) == Count(R.AllRows(s.hunks), kind)
    {
      MetaRowCounts(s.extended, kind);
      CountConcat(R.MetaRows(s.extended), R.AllRows(s.hunks), kind);
      assert rows[1..] == R.MetaRows(s.extended) + R.AllRows(s.hunks);
      if tail == [""] {
        R.ReadRowsAppend(None, lines, "");
        R.EmptyLine(R.After(None, lines));
        var last := [R.ReadLine(R.After(None, lines), "").0];
        CountConcat(rows, last, kind);
        assert last[1..] == [];
      } else {
        assert lines + tail == lines;
      }
    }
    HunkRowCounts(s.hunks);
  }

  // ----- cutting the whole text -----

  lemma {:induction false} CutSkips(a: seq<string>, b: seq<string>)
    requires NoFileHead(a)
    ensures Cut(a + b) == (a + Cut(b).0, Cut(b).1)
    decreases |a|
  {
    if a == [] {
      assert a + b == b && a + Cut(b).0 == Cut(b).0;
    } else {
      assert (a + b)[1..] == a[1..] + b;
      CutSkips(a[1..], b);
      assert [a[0]] + (a[1..] + Cut(b).0) == a + Cut(b).0;
    }
  }

  lemma {:induction false} StripKeepsNoFileHead(lines: seq<string>)
    requires NoFileHead(lines)
    ensures NoFileHead(StripAll(lines))
    decreases |lines|
  {
    if lines != [] {
      assert StripCR(lines[0]) <= lines[0];
      StripKeepsNoFileHead(lines[1..]);
      assert StripAll(lines)[1..] == StripAll(lines[1..]);
    }
  }

  lemma RestHasNoFileHead(s: Section)
    requires WellFormed(s)
    ensures NoFileHead(Stripped(s))
  {
    hide R.WellPrinted, ReadHeader, R.PrintHunks;
    HunksHaveNoHead(s.hunks);
    NoHeadsNoFileHead(s.extended);
    NoFileHeadConcat(s.extended, R.PrintHunks(s.hunks));
    StripKeepsNoFileHead(s.extended + R.PrintHunks(s.hunks));
  }

  /** The runs of lines the cut must find; the last one holds the empty line after the text. */
  function Runs(sections: seq<Section>): seq<seq<string>> {
    if sections == [] then []
    else [[sections[0].head] + Stripped(sections[0]) + (if |sections| == 1 then [""] else [])] + Runs(sections[1..])
  }

  lemma StripSection(s: Section, more: seq<string>)
    requires '\r' !in s.head
    ensures StripAll(PrintSection(s) + more) == [s.head] + (Stripped(s) + StripAll(more))
  {
    hide R.PrintHunks;
    var body := s.extended + R.PrintHunks(s.hunks);
    assert PrintSection(s) + more == [s.head] + (body + more);
    StripAllCons(s.head, body + more);
    StripAllConcat(body, more);
    assert s.head != "" ==> s.head[|s.head| - 1] in s.head;
  }

  lemma {:induction false} CutFindsSections(sections: seq<Section>)
    requires forall s | s in sections :: WellFormed(s)
    ensures Cut(StripAll(PrintDiff(sections)) + [""]) == (if sections == [] then [""] else [], Runs(sections))
    decreases |sections|
  {
    hide R.WellPrinted, ReadHeader, R.PrintHunks, Stripped, PrintSection, R.Preamble;
    if sections == [] {
      assert Cut([""]) == ([""], []) by {
        assert [""][1..] == [] && Cut([]) == ([], []) && [""] + [] == [""];
      }
      assert StripAll([]) + [""] == [""];
    } else {
      var s, more := sections[0], PrintDiff(sections[1..]);
      assert WellFormed(s);
      var after := StripAll(more) + [""];
      CutFindsSections(sections[1..]);
      StripSection(s, more);
      var lines := [s.head] + (Stripped(s) + after);
      assert StripAll(PrintDiff(sections)) + [""] == lines;
      RestHasNoFileHead(s);
      CutSkips(Stripped(s), after);
      assert lines[1..] == Stripped(s) + after;
      assert [s.head] + (Stripped(s) + Cut(after).0) == Runs(sections)[0];
    }
  }

  lemma {:induction false} PlainDiff(sections: seq<Section>)
    requires forall s | s in sections :: WellFormed(s)
    ensures forall l | l in PrintDiff(sections) :: R.Plain(l)
    decreases |sections|
  {
    hide R.WellPrinted, ReadHeader, R.PrintHunks;
    if sections != [] {
      var s := sections[0];
      assert WellFormed(s);
      R.PlainPrinted(s.hunks);
      assert R.Plain(s.head) by {
        assert StripCR(s.head) <= s.head;
      }
      assert forall l | l in PrintSection(s) :: R.Plain(l);
      PlainDiff(sections[1..]);
    }
  }

  // ----- the agreement -----

  /** What the review rows of the chunks that belong to a path add up to. */
  function SumRows(chunks: seq<Chunk>, path: string, kind: R.Kind): nat {
    if chunks == [] then 0
    else (if path in chunks[0].paths then Count(R.ReviewRows(chunks[0].text), kind) else 0) + SumRows(chunks[1..], path, kind)
  }

  lemma {:induction false} NormalizeClean(s: string)
    requires '\r' !in s
    ensures R.Normalize(s) == s
    decreases |s|
  {
    if s != "" {
      assert s == [s[0]] + s[1..];
      NormalizeClean(s[1..]);
    }
  }

  /** Lines of a text that has been normalized and split: no break of any kind is left. */
  predicate Clean(lines: seq<string>) {
    forall l | l in lines :: '\n' !in l && '\r' !in l
  }

  lemma {:induction false} JoinClean(lines: seq<string>)
    requires Clean(lines)
    ensures '\r' !in Join(lines)
    decreases |lines|
  {
    if lines != [] {
      assert lines[0] in lines;
      if |lines| > 1 {
        assert Clean(lines[1..]);
        JoinClean(lines[1..]);
      }
    }
  }

  lemma JoinedIsRead(lines: seq<string>)
    requires lines != [] && Clean(lines)
    ensures R.ReviewRows(Join(lines)) == R.ReadRows(None, lines)
  {
    hide R.ReadRows, Join, Split, R.Normalize;
    JoinClean(lines);
    NormalizeClean(Join(lines));
    SplitJoin(lines);
  }

  lemma {:induction false} StripAllClean(lines: seq<string>)
    requires forall l | l in lines :: R.Plain(l)
    ensures Clean(StripAll(lines))
    decreases |lines|
  {
    if lines != [] {
      assert R.Plain(lines[0]);
      assert StripCR(lines[0]) <= lines[0];
      StripAllClean(lines[1..]);
    }
  }

  lemma SectionClean(s: Section, tail: seq<string>)
    requires WellFormed(s) && (tail == [] || tail == [""])
    ensures Clean([s.head] + Stripped(s) + tail)
  {
    hide R.WellPrinted, ReadHeader, R.PrintHunks;
    R.PlainPrinted(s.hunks);
    assert forall l | l in s.extended :: R.Plain(l);
    StripAllClean(s.extended + R.PrintHunks(s.hunks));
  }

  /** One section and its chunk: the same paths, and the review rows count what was printed. */
  lemma ChunkCounts(rawPaths: S.PathReader, s: Section, tail: seq<string>, chunk: Chunk)
    requires WellFormed(s) && (tail == [] || tail == [""])
    requires var run := [s.head] + Stripped(s) + tail;
             chunk.paths == S.SectionPaths(rawPaths, run[0]) && chunk.text == Join(run)
    ensures chunk.paths == S.SectionPaths(rawPaths, s.head)
    ensures Count(R.ReviewRows(chunk.text), R.Added) == AddedOf(s.hunks)
    ensures Count(R.ReviewRows(chunk.text), R.Removed) == CutOf(s.hunks)
  {
    hide R.ReviewRows, R.ReadRows, R.WellPrinted, ReadHeader, Stripped, Join, WellFormed;
    SectionClean(s, tail);
    JoinedIsRead([s.head] + Stripped(s) + tail);
    SectionRowCounts(s, tail);
  }

  /** The chunks stand for the sections, one by one. */
  ghost predicate Represents(rawPaths: S.PathReader, chunks: seq<Chunk>, sections: seq<Section>) {
    |chunks| == |sections|
    && forall i | 0 <= i < |sections| ::
      && chunks[i].paths == S.SectionPaths(rawPaths, sections[i].head)
      && Count(R.ReviewRows(chunks[i].text), R.Added) == AddedOf(sections[i].hunks)
      && Count(R.ReviewRows(chunks[i].text), R.Removed) == CutOf(sections[i].hunks)
  }

  lemma {:induction false} ChunksRepresent(rawPaths: S.PathReader, sections: seq<Section>, truncated: bool)
    requires forall s | s in sections :: WellFormed(s)
    ensures Represents(rawPaths, FileChunks(rawPaths, Runs(sections), truncated), sections)
    decreases |sections|
  {
    hide R.ReviewRows, WellFormed, Stripped, Join;
    if sections != [] {
      var runs := Runs(sections);
      var tail := if |sections| == 1 then [""] else [];
      assert runs[0] == [sections[0].head] + Stripped(sections[0]) + tail && runs[1..] == Runs(sections[1..]);
      var chunks := FileChunks(rawPaths, runs, truncated);
      ChunkCounts(rawPaths, sections[0], tail, chunks[0]);
      ChunksRepresent(rawPaths, sections[1..], truncated);
      var rest := FileChunks(rawPaths, Runs(sections[1..]), truncated);
      assert chunks == [chunks[0]] + rest;
      forall i | 1 <= i < |sections|
        ensures chunks[i] == rest[i - 1] && sections[i] == sections[1..][i - 1]
      {
      }
    }
  }

  lemma {:induction false} SumsMatch(rawPaths: S.PathReader, chunks: seq<Chunk>, sections: seq<Section>, path: string)
    requires Represents(rawPaths, chunks, sections)
    ensures SumRows(chunks, path, R.Added) == SumAdded(rawPaths, sections, path)
    ensures SumRows(chunks, path, R.Removed) == SumCut(rawPaths, sections, path)
    decreases |sections|
  {
    hide R.ReviewRows, AddedOf, CutOf;
    if sections != [] {
      assert Represents(rawPaths, chunks[1..], sections[1..]);
      SumsMatch(rawPaths, chunks[1..], sections[1..], path);
    }
  }

  lemma BlankLineCounts(rawPaths: S.PathReader, acc: S.Acc, path: string)
    ensures var r := S.CountLine(rawPaths, acc, "");
            S.TotalAdded(r, path) == S.TotalAdded(acc, path) && S.TotalDeleted(r, path) == S.TotalDeleted(acc, path)
            && r.paths == acc.paths
  {
  }

  lemma TextCounts(rawPaths: S.PathReader, sections: seq<Section>, path: string)
    requires forall s | s in sections :: WellFormed(s)
    ensures var stats := S.StatsOf(rawPaths, Terminated(PrintDiff(sections)));
            && S.Added(stats, path) == SumAdded(rawPaths, sections, path)
            && S.Deleted(stats, path) == SumCut(rawPaths, sections, path)
  {
    hide WellFormed, S.CountLine, S.Finish, Split, Terminated, PrintDiff, S.TotalAdded, S.TotalDeleted, S.Added, S.Deleted;
    var lines := PrintDiff(sections);
    PlainDiff(sections);
    SplitTerminated(lines);
    S.CountLinesConcat(rawPaths, S.START, lines, [""]);
    assert [""][1..] == [];
    DiffCounts(rawPaths, S.START, sections, path);
    var a := S.CountLines(rawPaths, S.START, lines);
    BlankLineCounts(rawPaths, a, path);
    S.FinishTotals(S.CountLine(rawPaths, a, ""), path);
    StartIsZero(path);
  }

  lemma StartIsZero(path: string)
    ensures S.TotalAdded(S.START, path) == 0 && S.TotalDeleted(S.START, path) == 0
  {
  }

  lemma ChunksOfText(rawPaths: S.PathReader, sections: seq<Section>, truncated: bool)
    requires sections != [] && forall s | s in sections :: WellFormed(s)
    ensures SplitDiffFiles(rawPaths, Terminated(PrintDiff(sections)), truncated)
         == FileChunks(rawPaths, Runs(sections), truncated)
  {
    hide WellFormed, Split, Terminated, PrintDiff, R.Normalize, Stripped, Join;
    var lines := PrintDiff(sections);
    PlainDiff(sections);
    R.NormalizeTerminated(lines);
    R.StrippedNoFeed(lines);
    SplitTerminated(StripAll(lines));
    CutFindsSections(sections);
  }

  /** For every well-formed git diff of any number of files: splitDiffFiles finds its files
      one by one; in each, the added and removed review rows are the printed ones; and for
      every path the counted additions and deletions are the sums of those rows. */
  lemma ReadersAgree(rawPaths: S.PathReader, sections: seq<Section>, truncated: bool, path: string)
    requires sections != [] && forall s | s in sections :: WellFormed(s)
    ensures var text := Terminated(PrintDiff(sections));
            var chunks := SplitDiffFiles(rawPaths, text, truncated);
            && Represents(rawPaths, chunks, sections)
            && S.Added(S.StatsOf(rawPaths, text), path) == SumRows(chunks, path, R.Added)
            && S.Deleted(S.StatsOf(rawPaths, text), path) == SumRows(chunks, path, R.Removed)
  {
    hide WellFormed, S.StatsOf, SplitDiffFiles, Terminated, PrintDiff, FileChunks, Runs;
    ChunksOfText(rawPaths, sections, truncated);
    ChunksRepresent(rawPaths, sections, truncated);
    SumsMatch(rawPaths, FileChunks(rawPaths, Runs(sections), truncated), sections, path);
    TextCounts(rawPaths, sections, path);
  }
}
