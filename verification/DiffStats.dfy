/** parseWorkspaceDiffStats of ChatTimeline.tsx: the second reader of the same diffs, which
    only counts. `rawPaths` is what diffSectionPaths finds before it drops duplicates. */
module DiffStats {
  import opened Wrappers
  import opened Text
  import opened DiffHeader

  datatype Stats = Stats(additions: nat, deletions: nat, complete: bool)

  /** What is still to come of the current hunk. */
  datatype Open = Open(oldRemaining: nat, newRemaining: nat)

  datatype Acc = Acc(
    result: map<string, Stats>,
    paths: seq<string>,
    additions: nat,
    deletions: nat,
    complete: bool,
    hunk: Option<Open>)

  const START := Acc(map[], [], 0, 0, true, None)

  type PathReader = string -> seq<string>

  predicate Distinct(s: seq<string>) {
    forall i, j | 0 <= i < j < |s| :: s[i] != s[j]
  }

  /** `Array.from(new Set(paths))` */
  function Dedup(s: seq<string>): (r: seq<string>)
    ensures Distinct(r)
    ensures forall x :: x in r <==> x in s
  {
    if s == [] then []
    else
      var r := Dedup(s[..|s| - 1]);
      assert s == s[..|s| - 1] + [s[|s| - 1]];
      if s[|s| - 1] in r then r else r + [s[|s| - 1]]
  }

  function SectionPaths(rawPaths: PathReader, line: string): seq<string> {
    Dedup(rawPaths(line))
  }

  function AddTo(result: map<string, Stats>, path: string, s: Stats): map<string, Stats> {
    result[path := if path in result then
                     Stats(result[path].additions + s.additions, result[path].deletions + s.deletions,
                           result[path].complete && s.complete)
                   else s]
  }

  function AddAll(result: map<string, Stats>, paths: seq<string>, s: Stats): map<string, Stats>
    decreases |paths|
  {
    if paths == [] then result else AddAll(AddTo(result, paths[0], s), paths[1..], s)
  }

  function Flush(a: Acc): Acc {
    a.(result := AddAll(a.result, a.paths, Stats(a.additions, a.deletions, a.complete)))
  }

  const FILE_HEAD := "diff --git "
  const COMBINED := "@@@"

  /** One line inside an open hunk. */
  function HunkLine(a: Acc, h: Open, line: string): Acc {
    if "\\" <= line then a
    else if "+" <= line && h.newRemaining > 0 then
      a.(additions := a.additions + 1, hunk := Left(h.oldRemaining, h.newRemaining - 1))
    else if "-" <= line && h.oldRemaining > 0 then
      a.(deletions := a.deletions + 1, hunk := Left(h.oldRemaining - 1, h.newRemaining))
    else if " " <= line then
      a.(hunk := Left(if h.oldRemaining > 0 then h.oldRemaining - 1 else 0,
                      if h.newRemaining > 0 then h.newRemaining - 1 else 0))
    else a.(hunk := None)
  }

  function Left(o: nat, n: nat): Option<Open> {
    if o == 0 && n == 0 then None else Some(Open(o, n))
  }

  predicate IsBinary(line: string) {
    "Binary files " <= line || line == "GIT binary patch"
  }

  function CountLine(rawPaths: PathReader, a: Acc, line: string): Acc {
    if FILE_HEAD <= line then
      var paths := SectionPaths(rawPaths, line);
      Acc(Flush(a).result, paths, 0, 0, paths != [], None)
    else if a.paths == [] then a
    else
      var b := if IsBinary(line) then a.(complete := false) else a;
      if COMBINED <= line then b.(complete := false, hunk := None)
      else
        var header := ReadHeader(line, false);
        if header.Some? then b.(hunk := Some(Open(header.value.oldCount, header.value.newCount)))
        else if b.hunk.None? then b
        else HunkLine(b, b.hunk.value, line)
  }

  function CountLines(rawPaths: PathReader, a: Acc, lines: seq<string>): Acc
    decreases |lines|
  {
    if lines == [] then a else CountLines(rawPaths, CountLine(rawPaths, a, lines[0]), lines[1..])
  }

  function Finish(a: Acc): Acc {
    Flush(if a.hunk.Some? && (a.hunk.value.oldRemaining > 0 || a.hunk.value.newRemaining > 0)
          then a.(complete := false) else a)
  }

  function StatsOf(rawPaths: PathReader, text: string): map<string, Stats> {
    Finish(CountLines(rawPaths, START, Split(text))).result
  }

  lemma {:induction false} CountLinesConcat(rawPaths: PathReader, a: Acc, l: seq<string>, m: seq<string>)
    ensures CountLines(rawPaths, a, l + m) == CountLines(rawPaths, CountLines(rawPaths, a, l), m)
    decreases |l|
  {
    hide CountLine;
    if l == [] {
      assert l + m == m;
    } else {
      assert (l + m)[1..] == l[1..] + m;
      CountLinesConcat(rawPaths, CountLine(rawPaths, a, l[0]), l[1..], m);
    }
  }

  /** The inner closure `flush`: each path of the section gets the section's counts. */
  method FlushInto(result: map<string, Stats>, paths: seq<string>, current: Stats) returns (r: map<string, Stats>)
    ensures r == AddAll(result, paths, current)
  {
    r := result;
    for i := 0 to |paths|
      invariant AddAll(r, paths[i..], current) == AddAll(result, paths, current)
    {
      var path := paths[i];
      assert paths[i..][1..] == paths[i + 1..];
      if path in r {
        var previous := r[path];
        r := r[path := Stats(previous.additions + current.additions, previous.deletions + current.deletions,
                             previous.complete && current.complete)];
      } else {
        r := r[path := current];
      }
    }
  }

  /** One line inside an open hunk. */
  method CountHunkLine(line: string, additions: nat, deletions: nat, open: Open, ghost acc: Acc)
      returns (added: nat, deleted: nat, hunk: Option<Open>)
    requires acc.additions == additions && acc.deletions == deletions && acc.hunk == Some(open)
    ensures HunkLine(acc, open, line) == acc.(additions := added, deletions := deleted, hunk := hunk)
  {
    added, deleted, hunk := additions, deletions, Some(open);
    if "\\" <= line {
      return;
    }
    var o, n := open.oldRemaining, open.newRemaining;
    if "+" <= line && n > 0 {
      added, n := added + 1, n - 1;
    } else if "-" <= line && o > 0 {
      deleted, o := deleted + 1, o - 1;
    } else if " " <= line {
      o, n := if o > 0 then o - 1 else o, if n > 0 then n - 1 else n;
    } else {
      hunk := None;
      return;
    }
    hunk := if o == 0 && n == 0 then None else Some(Open(o, n));
  }

  /** The code: counters and a hunk record updated line by line. */
  method ParseWorkspaceDiffStats(rawPaths: PathReader, text: string) returns (result: map<string, Stats>)
    ensures result == StatsOf(rawPaths, text)
  {
    hide ReadHeader, Split, Dedup, AddAll, HunkLine;
    result := map[];
    var paths: seq<string> := [];
    var additions, deletions := 0, 0;
    var complete := true;
    var hunk: Option<Open> := None;
    var lines := Split(text);
    for i := 0 to |lines|
      invariant additions >= 0 && deletions >= 0
      invariant CountLines(rawPaths, Acc(result, paths, additions, deletions, complete, hunk), lines[i..])
             == CountLines(rawPaths, START, lines)
    {
      var line := lines[i];
      ghost var before := Acc(result, paths, additions, deletions, complete, hunk);
      if FILE_HEAD <= line {
        result := FlushInto(result, paths, Stats(additions, deletions, complete));
        paths := SectionPaths(rawPaths, line);
        additions, deletions, complete, hunk := 0, 0, paths != [], None;
      } else if paths != [] {
        if IsBinary(line) {
          complete := false;
        }
        if COMBINED <= line {
          complete, hunk := false, None;
        } else {
          var header := ReadHeader(line, false);
          if header.Some? {
            hunk := Some(Open(header.value.oldCount, header.value.newCount));
          } else if hunk.Some? {
            additions, deletions, hunk :=
              CountHunkLine(line, additions, deletions, hunk.value, Acc(result, paths, additions, deletions, complete, hunk));
          }
        }
      }
      assert Acc(result, paths, additions, deletions, complete, hunk) == CountLine(rawPaths, before, line);
      assert lines[i..][1..] == lines[i + 1..];
    }
    if hunk.Some? && (hunk.value.oldRemaining > 0 || hunk.value.newRemaining > 0) {
      complete := false;
    }
    result := FlushInto(result, paths, Stats(additions, deletions, complete));
  }

  // ----- counts only grow -----

  function Added(result: map<string, Stats>, path: string): nat {
    if path in result then result[path].additions else 0
  }

  function Deleted(result: map<string, Stats>, path: string): nat {
    if path in result then result[path].deletions else 0
  }

  /** What the path would have if the text ended here. */
  function TotalAdded(a: Acc, path: string): nat {
    Added(a.result, path) + if path in a.paths then a.additions else 0
  }

  function TotalDeleted(a: Acc, path: string): nat {
    Deleted(a.result, path) + if path in a.paths then a.deletions else 0
  }

  lemma {:induction false} AddAllTotals(result: map<string, Stats>, paths: seq<string>, s: Stats, path: string)
    requires Distinct(paths)
    ensures Added(AddAll(result, paths, s), path) == Added(result, path) + (if path in paths then s.additions else 0)
    ensures Deleted(AddAll(result, paths, s), path) == Deleted(result, path) + (if path in paths then s.deletions else 0)
    decreases |paths|
  {
    if paths != [] {
      var rest := paths[1..];
      assert Distinct(rest);
      assert paths[0] !in rest;
      assert path in paths <==> path == paths[0] || path in rest;
      AddAllTotals(AddTo(result, paths[0], s), rest, s, path);
    }
  }

  lemma FlushTotals(a: Acc, path: string)
    requires Distinct(a.paths)
    ensures Added(Flush(a).result, path) == TotalAdded(a, path)
    ensures Deleted(Flush(a).result, path) == TotalDeleted(a, path)
  {
    AddAllTotals(a.result, a.paths, Stats(a.additions, a.deletions, a.complete), path);
  }

  lemma LineGrows(rawPaths: PathReader, a: Acc, line: string, path: string)
    requires Distinct(a.paths)
    ensures var b := CountLine(rawPaths, a, line);
            Distinct(b.paths) && TotalAdded(b, path) >= TotalAdded(a, path) && TotalDeleted(b, path) >= TotalDeleted(a, path)
  {
    hide ReadHeader, AddAll;
    FlushTotals(a, path);
  }

  lemma {:induction false} LinesGrow(rawPaths: PathReader, a: Acc, lines: seq<string>, path: string)
    requires Distinct(a.paths)
    ensures var b := CountLines(rawPaths, a, lines);
            Distinct(b.paths) && TotalAdded(b, path) >= TotalAdded(a, path) && TotalDeleted(b, path) >= TotalDeleted(a, path)
    decreases |lines|
  {
    hide CountLine;
    if lines != [] {
      LineGrows(rawPaths, a, lines[0], path);
      LinesGrow(rawPaths, CountLine(rawPaths, a, lines[0]), lines[1..], path);
    }
  }

  /** A line cut short counts no more than the whole line. */
  lemma CutLine(rawPaths: PathReader, a: Acc, short: string, whole: string, path: string)
    requires Distinct(a.paths) && short <= whole
    ensures TotalAdded(CountLine(rawPaths, a, short), path) <= TotalAdded(CountLine(rawPaths, a, whole), path)
    ensures TotalDeleted(CountLine(rawPaths, a, short), path) <= TotalDeleted(CountLine(rawPaths, a, whole), path)
  {
    LineGrows(rawPaths, a, whole, path);
    hide CountLine, HunkLine, TotalAdded, TotalDeleted;
    if short != "" && (short[0] == '+' || short[0] == '-') {
      assert short[0] == whole[0];
      SignedLine(rawPaths, a, short);
      SignedLine(rawPaths, a, whole);
    } else {
      UnsignedLine(rawPaths, a, short, path);
    }
  }

  /** A signed line is never a header of any kind, so only its first character matters. */
  lemma SignedLine(rawPaths: PathReader, a: Acc, line: string)
    requires line != "" && (line[0] == '+' || line[0] == '-')
    ensures var b := CountLine(rawPaths, a, line);
            b == if a.paths == [] || a.hunk.None? then a else HunkLine(a, a.hunk.value, line[..1])
  {
    hide ReadHeader;
    SignIsNoHeader(line);
    assert "Binary files "[0] == 'B' && "GIT binary patch"[0] == 'G';
  }

  /** Any other line leaves the totals alone. */
  lemma UnsignedLine(rawPaths: PathReader, a: Acc, line: string, path: string)
    requires Distinct(a.paths)
    requires line == "" || (line[0] != '+' && line[0] != '-')
    ensures var b := CountLine(rawPaths, a, line);
            TotalAdded(b, path) == TotalAdded(a, path) && TotalDeleted(b, path) == TotalDeleted(a, path)
  {
    hide ReadHeader, AddAll;
    if FILE_HEAD <= line {
      FlushTotals(a, path);
    } else {
      PlainLine(rawPaths, a, line);
      hide CountLine;
    }
  }

  lemma PlainLine(rawPaths: PathReader, a: Acc, line: string)
    requires !(FILE_HEAD <= line) && (line == "" || (line[0] != '+' && line[0] != '-'))
    ensures var b := CountLine(rawPaths, a, line); b == a.(complete := b.complete, hunk := b.hunk)
  {
    hide ReadHeader;
  }

  lemma SignIsNoHeader(line: string)
    requires line != "" && (line[0] == '+' || line[0] == '-')
    ensures ReadHeader(line, false).None? && !(FILE_HEAD <= line) && !(COMBINED <= line) && !("\\" <= line)
  {
    assert "@@ -"[0] == '@' && FILE_HEAD[0] == 'd' && COMBINED[0] == '@';
  }

  lemma FinishTotals(a: Acc, path: string)
    requires Distinct(a.paths)
    ensures Added(Finish(a).result, path) == TotalAdded(a, path) && Deleted(Finish(a).result, path) == TotalDeleted(a, path)
  {
    FlushTotals(a, path);
    FlushTotals(a.(complete := false), path);
  }

  /** Cutting a diff at any character never raises any count, for any text at all. */
  lemma CutNeverRaises(rawPaths: PathReader, text: string, cut: nat, path: string)
    requires cut <= |text|
    ensures Added(StatsOf(rawPaths, text[..cut]), path) <= Added(StatsOf(rawPaths, text), path)
    ensures Deleted(StatsOf(rawPaths, text[..cut]), path) <= Deleted(StatsOf(rawPaths, text), path)
  {
    hide CountLine, Finish, TotalAdded, TotalDeleted, Added, Deleted, Split;
    var front, back := text[..cut], text[cut..];
    assert text == front + back;
    SplitConcat(front, back);
    var done, short := Front(Split(front)), Last(Split(front));
    assert Split(front) == done + [short];
    var more := Split(short + back);
    assert short in Split(front);
    FirstPieceContinues(short, back);
    var a := CountLines(rawPaths, START, done);
    LinesGrow(rawPaths, START, done, path);
    CountLinesConcat(rawPaths, START, done, [short]);
    CountLinesConcat(rawPaths, START, done, more);
    var b := CountLine(rawPaths, a, more[0]);
    assert [short][1..] == [];
    LineGrows(rawPaths, a, short, path);
    LineGrows(rawPaths, a, more[0], path);
    CutLine(rawPaths, a, short, more[0], path);
    LinesGrow(rawPaths, b, more[1..], path);
    FinishTotals(CountLine(rawPaths, a, short), path);
    FinishTotals(CountLines(rawPaths, b, more[1..]), path);
  }

  lemma FirstPieceContinues(a: string, b: string)
    requires '\n' !in a
    ensures a <= Split(a + b)[0]
  {
    var i := IndexOf(b, '\n');
    if i < 0 {
      SplitPlain(a + b);
    } else {
      var h := a + b[..i];
      assert a + b == h + "\n" + b[i + 1..];
      SplitHead(h, b[i + 1..]);
    }
  }
}
