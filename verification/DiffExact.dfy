/** What parseWorkspaceDiffStats counts, for every text at all: exactly the changed lines inside an open
    hunk of a section of the path; and when it calls the counts of a path complete. */
module DiffExact {
  import opened Wrappers
  import opened Text
  import opened DiffHeader
  import opened DiffStats

  predicate Starts(line: string, c: char) {
    line != "" && line[0] == c
  }

  predicate IsHead(line: string) {
    "diff --git " <= line
  }

  /** The last head line before line `j`. */
  function HeadOf(lines: seq<string>, j: nat): (h: Option<nat>)
    requires j <= |lines|
    ensures h.Some? ==> h.value < j && IsHead(lines[h.value])
  {
    if j == 0 then None else if IsHead(lines[j - 1]) then Some(j - 1) else HeadOf(lines, j - 1)
  }

  /** The paths of the section that line `j` stands in. */
  function SectionOf(rawPaths: PathReader, lines: seq<string>, j: nat): seq<string>
    requires j <= |lines|
  {
    if HeadOf(lines, j).None? then [] else rawPaths(lines[HeadOf(lines, j).value])
  }

  predicate IsHunk(line: string) {
    ReadHeader(line, false).Some?
  }

  /** The last hunk header before line `j`. */
  function HunkOf(lines: seq<string>, j: nat): (i: Option<nat>)
    requires j <= |lines|
    ensures i.Some? ==> i.value < j
  {
    if j == 0 then None else if IsHunk(lines[j - 1]) then Some(j - 1) else HunkOf(lines, j - 1)
  }

  /** How many lines of the old file stand between the header at `i` and line `j`. */
  function Olds(lines: seq<string>, i: nat, j: nat): nat
    requires i < j <= |lines|
  {
    if j == i + 1 then 0
    else Olds(lines, i, j - 1) + if Starts(lines[j - 1], '-') || Starts(lines[j - 1], ' ') then 1 else 0
  }

  function News(lines: seq<string>, i: nat, j: nat): nat
    requires i < j <= |lines|
  {
    if j == i + 1 then 0
    else News(lines, i, j - 1) + if Starts(lines[j - 1], '+') || Starts(lines[j - 1], ' ') then 1 else 0
  }

  function OldCount(lines: seq<string>, i: nat): nat
    requires i < |lines| && IsHunk(lines[i])
  {
    ReadHeader(lines[i], false).value.oldCount
  }

  function NewCount(lines: seq<string>, i: nat): nat
    requires i < |lines| && IsHunk(lines[i])
  {
    ReadHeader(lines[i], false).value.newCount
  }

  /** Line `k` may stand in the hunk of `i`: a change only while its file has lines left. */
  predicate FitsHunk(lines: seq<string>, i: nat, k: nat)
    requires i < k < |lines| && IsHunk(lines[i])
  {
    || Starts(lines[k], '\\') || Starts(lines[k], ' ')
    || (Starts(lines[k], '+') && News(lines, i, k) < NewCount(lines, i))
    || (Starts(lines[k], '-') && Olds(lines, i, k) < OldCount(lines, i))
  }

  /** The hunk of `i` is still open before line `j`. */
  predicate StaysOpen(lines: seq<string>, i: nat, j: nat)
    requires i < j <= |lines| && IsHunk(lines[i])
  {
    && (forall k | i < k < j :: FitsHunk(lines, i, k))
    && (Olds(lines, i, j) < OldCount(lines, i) || News(lines, i, j) < NewCount(lines, i))
  }

  predicate InHunk(lines: seq<string>, j: nat)
    requires j <= |lines|
  {
    HunkOf(lines, j).Some? && IsHunk(lines[HunkOf(lines, j).value]) && StaysOpen(lines, HunkOf(lines, j).value, j)
  }

  predicate IsAddition(lines: seq<string>, j: nat)
    requires j < |lines|
  {
    InHunk(lines, j) && Starts(lines[j], '+') && var i := HunkOf(lines, j).value; News(lines, i, j) < NewCount(lines, i)
  }

  predicate IsDeletion(lines: seq<string>, j: nat)
    requires j < |lines|
  {
    InHunk(lines, j) && Starts(lines[j], '-') && var i := HunkOf(lines, j).value; Olds(lines, i, j) < OldCount(lines, i)
  }

  /** The additions among the first `j` lines that stand in a section of the path. */
  function Additions(rawPaths: PathReader, lines: seq<string>, path: string, j: nat): nat
    requires j <= |lines|
  {
    if j == 0 then 0
    else
      Additions(rawPaths, lines, path, j - 1)
      + if path in SectionOf(rawPaths, lines, j - 1) && IsAddition(lines, j - 1) then 1 else 0
  }

  function Deletions(rawPaths: PathReader, lines: seq<string>, path: string, j: nat): nat
    requires j <= |lines|
  {
    if j == 0 then 0
    else
      Deletions(rawPaths, lines, path, j - 1)
      + if path in SectionOf(rawPaths, lines, j - 1) && IsDeletion(lines, j - 1) then 1 else 0
  }

  /** A binary file, or a hunk of a merge. */
  predicate IsUnreadable(line: string) {
    "Binary files " <= line || line == "GIT binary patch" || "@@@" <= line
  }

  predicate AllReadable(rawPaths: PathReader, lines: seq<string>, path: string, j: nat)
    requires j <= |lines|
  {
    forall k | 0 <= k < j && path in SectionOf(rawPaths, lines, k) :: !IsUnreadable(lines[k])
  }

  predicate IsNamed(rawPaths: PathReader, lines: seq<string>, path: string, j: nat)
    requires j <= |lines|
  {
    exists h | 0 <= h < j :: IsHead(lines[h]) && path in rawPaths(lines[h])
  }

  // ----- the state before a line -----

  function Minus(a: nat, b: nat): nat {
    if a > b then a - b else 0
  }

  predicate HunkIs(hunk: Option<Open>, lines: seq<string>, j: nat)
    requires j <= |lines|
  {
    if InHunk(lines, j) then
      var i := HunkOf(lines, j).value;
      hunk == Some(Open(Minus(OldCount(lines, i), Olds(lines, i, j)), Minus(NewCount(lines, i), News(lines, i, j))))
    else hunk.None? || hunk == Some(Open(0, 0))
  }

  lemma NextCounts(lines: seq<string>, i: nat, j: nat)
    requires i < j < |lines|
    ensures Olds(lines, i, j + 1) == Olds(lines, i, j) + (if Starts(lines[j], '-') || Starts(lines[j], ' ') then 1 else 0)
    ensures News(lines, i, j + 1) == News(lines, i, j) + (if Starts(lines[j], '+') || Starts(lines[j], ' ') then 1 else 0)
  {
  }

  lemma NextOpen(lines: seq<string>, i: nat, j: nat)
    requires i < j < |lines| && IsHunk(lines[i])
    ensures StaysOpen(lines, i, j + 1) <==>
              && StaysOpen(lines, i, j) && FitsHunk(lines, i, j)
              && (Olds(lines, i, j + 1) < OldCount(lines, i) || News(lines, i, j + 1) < NewCount(lines, i))
  {
    hide IsHunk, FitsHunk, Olds, News, OldCount, NewCount, ReadHeader;
    NextCounts(lines, i, j);
  }

  /** A line that is no hunk header closes the hunk, or leaves it open. */
  lemma NextInHunk(lines: seq<string>, j: nat)
    requires j < |lines| && !IsHunk(lines[j])
    ensures HunkOf(lines, j + 1) == HunkOf(lines, j)
    ensures InHunk(lines, j + 1) ==> InHunk(lines, j)
    ensures InHunk(lines, j) ==>
              var i := HunkOf(lines, j).value;
              (InHunk(lines, j + 1) <==>
                 FitsHunk(lines, i, j) && (Olds(lines, i, j + 1) < OldCount(lines, i) || News(lines, i, j + 1) < NewCount(lines, i)))
  {
    assert HunkOf(lines, j + 1) == HunkOf(lines, j);
    if HunkOf(lines, j).Some? && IsHunk(lines[HunkOf(lines, j).value]) {
      NextOpen(lines, HunkOf(lines, j).value, j);
    }
    hide HunkOf, IsHunk, FitsHunk, Olds, News, OldCount, NewCount, StaysOpen;
  }

  lemma HeaderOpens(lines: seq<string>, j: nat)
    requires j < |lines| && IsHunk(lines[j])
    ensures HunkIs(Some(Open(OldCount(lines, j), NewCount(lines, j))), lines, j + 1)
  {
    hide ReadHeader;
    assert HunkOf(lines, j + 1) == Some(j);
  }

  /** What a line is, by its first character. */
  lemma FirstDecides(line: string)
    ensures IsHunk(line) ==> Starts(line, '@') && !IsUnreadable(line)
    ensures IsUnreadable(line) ==> Starts(line, 'B') || Starts(line, 'G') || Starts(line, '@')
    ensures IsHead(line) ==> Starts(line, 'd')
  {
    assert FILE_HEAD[0] == 'd' && "Binary files "[0] == 'B' && "GIT binary patch"[0] == 'G' && "@@@"[0] == '@';
    if IsHunk(line) {
      assert "@@ -" <= line;
      assert line[2] == ' ' && "@@@"[2] == '@';
    }
  }

  /** What a line does to what is left of a hunk, and to the counts. */
  lemma LineTakes(a: Acc, h: Open, line: string)
    requires h.oldRemaining > 0 || h.newRemaining > 0
    ensures var b := HunkLine(a, h, line);
            var added, deleted := Starts(line, '+') && h.newRemaining > 0, Starts(line, '-') && h.oldRemaining > 0;
            var o := Minus(h.oldRemaining, if Starts(line, '-') || Starts(line, ' ') then 1 else 0);
            var n := Minus(h.newRemaining, if Starts(line, '+') || Starts(line, ' ') then 1 else 0);
            && b == a.(hunk := b.hunk, additions := a.additions + (if added then 1 else 0), deletions := a.deletions + (if deleted then 1 else 0))
            && (Starts(line, '\\') ==> b.hunk == a.hunk)
            && (added || deleted || Starts(line, ' ') ==> b.hunk == if o == 0 && n == 0 then None else Some(Open(o, n)))
            && (!added && !deleted && !Starts(line, ' ') && !Starts(line, '\\') ==> b.hunk.None?)
  {
    FirstIs(line);
  }

  /** A line inside an open hunk is counted as what it is, and takes its lines off the hunk. */
  lemma HunkLineIs(a: Acc, lines: seq<string>, j: nat)
    requires j < |lines| && InHunk(lines, j) && HunkIs(a.hunk, lines, j) && !IsHunk(lines[j])
    ensures var b := HunkLine(a, a.hunk.value, lines[j]);
            && HunkIs(b.hunk, lines, j + 1) && b == a.(hunk := b.hunk, additions := b.additions, deletions := b.deletions)
            && b.additions == a.additions + (if IsAddition(lines, j) then 1 else 0)
            && b.deletions == a.deletions + (if IsDeletion(lines, j) then 1 else 0)
  {
    var i := HunkOf(lines, j).value;
    NextInHunk(lines, j);
    NextCounts(lines, i, j);
    OpenHasMore(lines, i, j);
    LineTakes(a, a.hunk.value, lines[j]);
    hide HunkLine, IsHunk, OldCount, NewCount, InHunk, HunkOf, Olds, News;
  }

  lemma OpenHasMore(lines: seq<string>, i: nat, j: nat)
    requires i < j <= |lines| && IsHunk(lines[i]) && StaysOpen(lines, i, j)
    ensures Minus(OldCount(lines, i), Olds(lines, i, j)) > 0 || Minus(NewCount(lines, i), News(lines, i, j)) > 0
  {
    hide IsHunk, OldCount, NewCount, Olds, News, FitsHunk;
  }

  lemma FirstIs(line: string)
    ensures ("\\" <= line <==> Starts(line, '\\')) && ("+" <= line <==> Starts(line, '+'))
    ensures ("-" <= line <==> Starts(line, '-')) && (" " <= line <==> Starts(line, ' '))
  {
  }

  lemma ClosedLineIs(a: Acc, lines: seq<string>, j: nat)
    requires j < |lines| && !InHunk(lines, j) && HunkIs(a.hunk, lines, j) && !IsHunk(lines[j])
    ensures !InHunk(lines, j + 1) && HunkIs(a.hunk, lines, j + 1)
    ensures a.hunk.Some? ==> var b := HunkLine(a, a.hunk.value, lines[j]); b == a.(hunk := b.hunk) && HunkIs(b.hunk, lines, j + 1)
  {
    NextInHunk(lines, j);
    FirstIs(lines[j]);
    hide InHunk, IsHunk;
  }

  /** One line of the body of a section that has paths. */
  lemma BodyLineIs(rawPaths: PathReader, a: Acc, lines: seq<string>, j: nat)
    requires j < |lines| && a.paths != [] && HunkIs(a.hunk, lines, j) && !IsHead(lines[j])
    ensures var b := CountLine(rawPaths, a, lines[j]);
            && HunkIs(b.hunk, lines, j + 1) && b.result == a.result && b.paths == a.paths
            && b.additions == a.additions + (if IsAddition(lines, j) then 1 else 0)
            && b.deletions == a.deletions + (if IsDeletion(lines, j) then 1 else 0)
            && (b.complete <==> a.complete && !IsUnreadable(lines[j]))
  {
    var line := lines[j];
    FirstDecides(line);
    if IsHunk(line) {
      HeaderOpens(lines, j);
      hide HunkIs, InHunk;
    } else {
      var c := if IsBinary(line) then a.(complete := false) else a;
      if InHunk(lines, j) {
        HunkLineIs(c, lines, j);
        NextInHunk(lines, j);
      } else {
        ClosedLineIs(c, lines, j);
      }
      hide HunkLine, HunkOf, Olds, News, OldCount, NewCount, StaysOpen, ReadHeader;
    }
  }

  // ----- a whole text -----

  predicate SoFarComplete(a: Acc, path: string) {
    (path in a.result ==> a.result[path].complete) && (path in a.paths ==> a.complete)
  }

  /** After the first `j` lines. */
  ghost predicate CountedTo(rawPaths: PathReader, a: Acc, lines: seq<string>, j: nat, path: string)
    requires j <= |lines|
  {
    && a.paths == Dedup(SectionOf(rawPaths, lines, j)) && (a.paths != [] ==> HunkIs(a.hunk, lines, j))
    && (path in a.result || path in a.paths <==> IsNamed(rawPaths, lines, path, j))
    && TotalAdded(a, path) == Additions(rawPaths, lines, path, j) && TotalDeleted(a, path) == Deletions(rawPaths, lines, path, j)
    && (SoFarComplete(a, path) <==> AllReadable(rawPaths, lines, path, j))
  }

  lemma {:induction false} AddAllIs(result: map<string, Stats>, paths: seq<string>, s: Stats, path: string)
    requires Distinct(paths)
    ensures var r := AddAll(result, paths, s);
            && (path in r <==> path in result || path in paths)
            && (path in r ==> (r[path].complete <==> (path in result ==> result[path].complete) && (path in paths ==> s.complete)))
    decreases |paths|
  {
    if paths != [] {
      var rest := paths[1..];
      assert Distinct(rest) && paths[0] !in rest;
      assert path in paths <==> path == paths[0] || path in rest;
      AddAllIs(AddTo(result, paths[0], s), rest, s, path);
    }
  }

  lemma NamedNext(rawPaths: PathReader, lines: seq<string>, path: string, j: nat)
    requires j < |lines|
    ensures IsNamed(rawPaths, lines, path, j + 1) <==>
              IsNamed(rawPaths, lines, path, j) || (IsHead(lines[j]) && path in rawPaths(lines[j]))
  {
  }

  lemma ReadableNext(rawPaths: PathReader, lines: seq<string>, path: string, j: nat)
    requires j < |lines|
    ensures AllReadable(rawPaths, lines, path, j + 1) <==>
              AllReadable(rawPaths, lines, path, j) && (path in SectionOf(rawPaths, lines, j) ==> !IsUnreadable(lines[j]))
  {
  }

  lemma HeadCloses(lines: seq<string>, j: nat)
    requires j < |lines| && IsHead(lines[j])
    ensures !InHunk(lines, j + 1) && !IsAddition(lines, j) && !IsDeletion(lines, j) && !IsUnreadable(lines[j])
  {
    FirstDecides(lines[j]);
    NextInHunk(lines, j);
    hide IsHunk, HunkOf, Olds, News, OldCount, NewCount, IsUnreadable;
  }

  /** A head line closes the section before it and opens its own. */
  lemma HeadCounts(rawPaths: PathReader, a: Acc, lines: seq<string>, j: nat, path: string)
    requires j < |lines| && IsHead(lines[j]) && CountedTo(rawPaths, a, lines, j, path)
    ensures CountedTo(rawPaths, CountLine(rawPaths, a, lines[j]), lines, j + 1, path)
  {
    var b := CountLine(rawPaths, a, lines[j]);
    NamedNext(rawPaths, lines, path, j);
    ReadableNext(rawPaths, lines, path, j);
    FlushTotals(a, path);
    AddAllIs(a.result, a.paths, Stats(a.additions, a.deletions, a.complete), path);
    HeadCloses(lines, j);
    SectionOpens(rawPaths, a, lines, j);
    NextTotals(rawPaths, lines, path, j);
    hide CountLine, AllReadable, IsNamed, IsUnreadable, InHunk, IsAddition, IsDeletion, AddAll, Dedup, Additions, Deletions, SectionOf, IsHead;
  }

  lemma SectionOpens(rawPaths: PathReader, a: Acc, lines: seq<string>, j: nat)
    requires j < |lines| && IsHead(lines[j])
    ensures SectionOf(rawPaths, lines, j + 1) == rawPaths(lines[j])
    ensures var paths := Dedup(rawPaths(lines[j])); CountLine(rawPaths, a, lines[j]) == Acc(Flush(a).result, paths, 0, 0, paths != [], None)
  {
    hide Dedup;
  }

  lemma NextTotals(rawPaths: PathReader, lines: seq<string>, path: string, j: nat)
    requires j < |lines|
    ensures Additions(rawPaths, lines, path, j + 1) ==
            Additions(rawPaths, lines, path, j) + (if path in SectionOf(rawPaths, lines, j) && IsAddition(lines, j) then 1 else 0)
    ensures Deletions(rawPaths, lines, path, j + 1) ==
            Deletions(rawPaths, lines, path, j) + (if path in SectionOf(rawPaths, lines, j) && IsDeletion(lines, j) then 1 else 0)
  {
  }

  lemma BodyCounts(rawPaths: PathReader, a: Acc, lines: seq<string>, j: nat, path: string)
    requires j < |lines| && !IsHead(lines[j]) && CountedTo(rawPaths, a, lines, j, path)
    ensures CountedTo(rawPaths, CountLine(rawPaths, a, lines[j]), lines, j + 1, path)
  {
    NamedNext(rawPaths, lines, path, j);
    ReadableNext(rawPaths, lines, path, j);
    NextTotals(rawPaths, lines, path, j);
    SectionGoesOn(rawPaths, a, lines, j);
    if a.paths != [] {
      BodyLineIs(rawPaths, a, lines, j);
    }
    hide CountLine, IsHunk, AllReadable, IsNamed, IsUnreadable, HunkIs, InHunk, IsAddition, IsDeletion, Dedup, Additions, Deletions, SectionOf;
  }

  lemma SectionGoesOn(rawPaths: PathReader, a: Acc, lines: seq<string>, j: nat)
    requires j < |lines| && !IsHead(lines[j])
    ensures SectionOf(rawPaths, lines, j + 1) == SectionOf(rawPaths, lines, j)
    ensures a.paths == [] ==> CountLine(rawPaths, a, lines[j]) == a
  {
  }

  lemma {:induction false} LinesCounted(rawPaths: PathReader, lines: seq<string>, j: nat, path: string)
    requires j <= |lines|
    ensures CountedTo(rawPaths, CountLines(rawPaths, START, lines[..j]), lines, j, path)
    decreases j
  {
    hide CountedTo, CountLine, IsHead;
    if j == 0 {
      NothingCounted(rawPaths, lines, path);
    } else {
      var a := CountLines(rawPaths, START, lines[..j - 1]);
      LinesCounted(rawPaths, lines, j - 1, path);
      assert lines[..j] == lines[..j - 1] + [lines[j - 1]];
      CountLinesConcat(rawPaths, START, lines[..j - 1], [lines[j - 1]]);
      assert [lines[j - 1]][1..] == [];
      if IsHead(lines[j - 1]) {
        HeadCounts(rawPaths, a, lines, j - 1, path);
      } else {
        BodyCounts(rawPaths, a, lines, j - 1, path);
      }
    }
  }

  lemma NothingCounted(rawPaths: PathReader, lines: seq<string>, path: string)
    ensures CountedTo(rawPaths, START, lines, 0, path)
  {
  }

  /** For every text: a path has counts exactly if a head line names it; they are the added and removed
      lines inside the open hunks of its sections; and they are called complete exactly if no line of these
      sections is of a binary file or a merge, and the text does not end inside a hunk of the path. */
  lemma StatsAreExact(rawPaths: PathReader, text: string, path: string)
    ensures var lines, r := Split(text), StatsOf(rawPaths, text);
            && (path in r <==> IsNamed(rawPaths, lines, path, |lines|))
            && (path in r ==>
                  && r[path].additions == Additions(rawPaths, lines, path, |lines|)
                  && r[path].deletions == Deletions(rawPaths, lines, path, |lines|)
                  && (r[path].complete <==>
                        && AllReadable(rawPaths, lines, path, |lines|)
                        && !(path in SectionOf(rawPaths, lines, |lines|) && InHunk(lines, |lines|))))
  {
    var lines := Split(text);
    var a := CountLines(rawPaths, START, lines);
    LinesCounted(rawPaths, lines, |lines|, path);
    assert lines[..|lines|] == lines;
    FinishTotals(a, path);
    var open := a.hunk.Some? && (a.hunk.value.oldRemaining > 0 || a.hunk.value.newRemaining > 0);
    AddAllIs(a.result, a.paths, Stats(a.additions, a.deletions, a.complete && !open), path);
    if a.paths != [] {
      OpenAtEnd(a.hunk, lines, |lines|);
    }
    hide Split, CountLines, AllReadable, IsNamed, InHunk, HunkIs, Dedup, AddAll, Additions, Deletions;
  }

  lemma OpenAtEnd(hunk: Option<Open>, lines: seq<string>, j: nat)
    requires j <= |lines| && HunkIs(hunk, lines, j)
    ensures InHunk(lines, j) <==> hunk.Some? && (hunk.value.oldRemaining > 0 || hunk.value.newRemaining > 0)
  {
    hide HunkOf, Olds, News, OldCount, NewCount, IsHunk;
  }

  /** A cut goes unnoticed if it comes right after a line feed: the text is never said to end inside a
      hunk then, wherever it was cut. */
  lemma CutAfterLineFeed(text: string)
    ensures var lines := Split(text + "\n"); !InHunk(lines, |lines|)
  {
    var lines := Split(text + "\n");
    LastIsEmpty(text);
    var j := |lines| - 1;
    FirstDecides(lines[j]);
    NextInHunk(lines, j);
    hide InHunk, IsHunk, Split;
  }

  lemma LastIsEmpty(text: string)
    ensures Last(Split(text + "\n")) == ""
  {
    SplitConcat(text, "\n");
    var last := Rest(text);
    assert last + "\n" == last + "\n" + "";
    SplitHead(last, "");
    hide Split;
  }
}
