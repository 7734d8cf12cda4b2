/** What a route that is reported complete has read of the long result, over its whole trace and all
    results given, whenever they come. Complete does not mean read: a page that tells nothing is
    passed over. All was read exactly if no page left a hole up to the next one. */
module RouteReading {
  import opened Wrappers
  import opened ProfileModel
  import opened RouteCoverage
  import RouteEvidence
  import RouteSafety

  // ----- what has been read -----

  predicate IsPageAt(c: Call, o: int) {
    c.kind.Page? && c.arguments.Slice? && c.arguments.offset == o
  }

  /** A page call at offset `o` is told `page` by the first result under its id, whenever that comes
      after the call. */
  predicate Tells(k: Config, requests: seq<seq<ToolResult>>, o: int, page: PageInfo) {
    requests != [] &&
    (Tells(k, requests[..|requests| - 1], o, page)
     || var p := Drive(k, FRESH, requests[..|requests| - 1]);
        exists c | c in p.trace :: IsPageAt(c, o) && TaleOf(p, requests[|requests| - 1], Id(Page, c.index)) == Some(page))
  }

  /** Byte `b` was in a page that was told. */
  ghost predicate WasRead(k: Config, requests: seq<seq<ToolResult>>, b: int) {
    exists o, page :: Tells(k, requests, o, page) && o <= b && Reaches(page, b)
  }

  ghost predicate AllRead(k: Config, requests: seq<seq<ToolResult>>) {
    forall b | InResult(Drive(k, FRESH, requests), b) :: WasRead(k, requests, b)
  }

  /** No page is told later than by the request after its call. */
  predicate NoneLate(k: Config, requests: seq<seq<ToolResult>>) {
    requests == [] ||
    (NoneLate(k, requests[..|requests| - 1])
     && var p := Drive(k, FRESH, requests[..|requests| - 1]);
        forall c | c in p.trace && c.kind.Page? && TaleOf(p, requests[|requests| - 1], Id(Page, c.index)).Some? ::
          PageOut(p) && c.index == p.callIndex)
  }

  // ----- the page calls of a trace -----

  function Offsets(trace: seq<Call>): seq<int> {
    if trace == [] then []
    else
      var c := trace[|trace| - 1];
      Offsets(trace[..|trace| - 1]) + if c.kind.Page? && c.arguments.Slice? then [c.arguments.offset] else []
  }

  predicate Indexed(p: Provider) {
    |p.trace| == p.callIndex && forall i | 0 <= i < |p.trace| :: p.trace[i].index == i + 1
  }

  predicate Slices(trace: seq<Call>) {
    forall c | c in trace && c.kind.Page? :: c.arguments.Slice?
  }

  predicate Rising(offs: seq<int>) {
    forall i, j | 0 <= i < j < |offs| :: offs[i] < offs[j]
  }

  /** The last call is the page that is out. */
  predicate LastIsOut(p: Provider) {
    p.trace != [] && p.trace[|p.trace| - 1].index == p.callIndex && IsPageAt(p.trace[|p.trace| - 1], p.nextOffset)
  }

  /** What the trace is in every run: numbered calls, and pages at rising offsets from zero on. */
  predicate Asked(p: Provider) {
    && Indexed(p) && Slices(p.trace) && Rising(Offsets(p.trace))
    && (p.profileRef.None? ==> Offsets(p.trace) == [])
    && (p.profileRef.Some? ==> Offsets(p.trace) != [] && Offsets(p.trace)[0] == 0)
    && (PageOut(p) ==> LastIsOut(p) && Offsets(p.trace)[|Offsets(p.trace)| - 1] == p.nextOffset)
  }

  lemma OffsetsNext(trace: seq<Call>, c: Call)
    ensures Offsets(trace + [c]) == Offsets(trace) + if c.kind.Page? && c.arguments.Slice? then [c.arguments.offset] else []
  {
    assert (trace + [c])[..|trace|] == trace;
  }

  lemma {:induction false} OffsetsAre(trace: seq<Call>, o: int)
    ensures o in Offsets(trace) <==> exists c | c in trace :: IsPageAt(c, o)
    decreases |trace|
  {
    if trace != [] {
      var front, c := trace[..|trace| - 1], trace[|trace| - 1];
      assert trace == front + [c];
      OffsetsAre(front, o);
      OffsetsNext(front, c);
      hide Offsets, IsPageAt;
      assert c in trace && forall x | x in front :: x in trace;
      assert forall x | x in trace :: x in front || x == c;
      assert IsPageAt(c, o) <==> o in (if c.kind.Page? && c.arguments.Slice? then [c.arguments.offset] else []) by {
        PageItself(c, o);
      }
    }
  }

  lemma PageItself(c: Call, o: int)
    ensures IsPageAt(c, o) <==> o in if c.kind.Page? && c.arguments.Slice? then [c.arguments.offset] else []
  {
  }

  /** A call that asks for no page. */
  lemma CallAsks(p: Provider, kind: Kind, arguments: Arguments, path: Option<Path>)
    requires Indexed(p) && Slices(p.trace) && !kind.Page?
    ensures var q := NewCall(p, kind, arguments, path);
            Indexed(q) && Slices(q.trace) && Offsets(q.trace) == Offsets(p.trace)
  {
    OffsetsNext(p.trace, Call(p.callIndex + 1, kind, arguments));
    hide Offsets;
  }

  lemma {:induction false} ReadsAsk(p: Provider, paths: seq<Path>, kind: Kind)
    requires Indexed(p) && Slices(p.trace) && !kind.Page?
    ensures var q := ReadCalls(p, paths, kind);
            Indexed(q) && Slices(q.trace) && Offsets(q.trace) == Offsets(p.trace)
    decreases |paths|
  {
    hide Offsets, Slices, Indexed;
    if paths != [] {
      var k := if paths[0].Evidence? then LargeRead else kind;
      var q := if paths[0].Evidence? then p.(largeReadRequested := true) else p;
      assert Indexed(q) by { SameIndexed(p, q); }
      CallAsks(q, k, File(paths[0]), Some(paths[0]));
      ReadsAsk(NewCall(q, k, File(paths[0]), Some(paths[0])), paths[1..], k);
    }
  }

  lemma SameIndexed(p: Provider, q: Provider)
    requires Indexed(p) && q.trace == p.trace && q.callIndex == p.callIndex
    ensures Indexed(q)
  {
  }

  lemma ChosenAsks(k: Config, p: Provider)
    requires Indexed(p) && Slices(p.trace)
    ensures var q := Choose(k, p);
            && Indexed(q) && Slices(q.trace)
            && (PageOut(p) ==> LastIsOut(q) && Offsets(q.trace) == Offsets(p.trace) + [p.nextOffset])
            && (!PageOut(p) ==> Offsets(q.trace) == Offsets(p.trace))
  {
    hide Offsets;
    if PageOut(p) {
      var c := Call(p.callIndex + 1, Page, Slice(p.profileRef.value, p.nextOffset, PageLimit(k.seed + p.pageCalls)));
      OffsetsNext(p.trace, c);
      assert Choose(k, p).trace == p.trace + [c];
    } else if Missing(p) != {} {
      ReadsAsk(p, Batch(k, p), Read);
    } else if !p.largeReadRequested {
      ReadsAsk(p, [Evidence], Read);
    } else if p.editSucceeded {
      ReadsAsk(p, k.order(PostMissing(p)), PostRead);
    } else if !p.editAttempted {
      var edit := if Implementation in p.readContents then k.derive(p.readContents[Implementation]) else None;
      if edit.Some? {
        var t := p.(editAttempted := true);
        SameIndexed(p, t);
        CallAsks(t, Edit, Replace(edit.value.0, edit.value.1), Some(Implementation));
      }
    }
  }

  lemma {:induction false} EachIndex(k: Config, p: Provider, results: seq<ToolResult>)
    ensures ObserveEach(k, p, results).0.callIndex == p.callIndex
    decreases |results|
  {
    hide ObserveOne;
    if results != [] {
      EachIndex(k, p, results[..|results| - 1]);
      OneIndex(k, ObserveEach(k, p, results[..|results| - 1]), results[|results| - 1]);
    }
  }

  lemma OneIndex(k: Config, a: (Provider, bool), r: ToolResult)
    ensures ObserveOne(k, a, r).0.callIndex == a.0.callIndex && ObserveOne(k, a, r).0.seen == a.0.seen + {r.id}
  {
    hide ReadResult, PageResult;
    if r.id !in a.0.seen && r.id in a.0.pending {
      var t := a.0.(seen := a.0.seen + {r.id}, pending := a.0.pending - {r.id});
      var (kind, path) := a.0.pending[r.id];
      if path.Some? {
        RouteSafety.ReadResultIds(k, t, kind, path.value, r);
      }
      if r.page.Some? {
        PageIndex(t, a.1, r.page.value);
      }
    }
  }

  lemma PageIndex(p: Provider, observed: bool, page: PageInfo)
    ensures var q := PageResult(p, observed, page).0; q == p.(nextOffset := q.nextOffset, pagesFinished := q.pagesFinished)
  {
  }

  lemma HeardAsks(k: Config, p: Provider, results: seq<ToolResult>)
    requires Indexed(p)
    ensures Indexed(Heard(k, p, results)) && Heard(k, p, results).trace == p.trace
  {
    EachIndex(k, p, results);
    RouteSafety.HeardTrace(k, p, results);
  }

  lemma PlanAsks(k: Config, p: Provider, results: seq<ToolResult>)
    requires Indexed(p) && Slices(p.trace)
    ensures var q := Plan(k, p, results);
            && Indexed(q) && Slices(q.trace)
            && (PageOut(q) ==> LastIsOut(q) && Offsets(q.trace) == Offsets(p.trace) + [q.nextOffset])
            && (!PageOut(q) ==> Offsets(q.trace) == Offsets(p.trace))
  {
    hide Offsets, Slices, Indexed, LastIsOut, Heard, Choose;
    HeardAsks(k, p, results);
    ChosenAsks(k, Heard(k, p, results));
    ChosenPages(k, Heard(k, p, results));
  }

  // ----- every run -----

  lemma RisingNext(offs: seq<int>, o: int)
    requires Rising(offs) && (offs == [] || offs[|offs| - 1] < o)
    ensures Rising(offs + [o])
  {
  }

  /** The next answer: no page, the first page, or a page further on. */
  predicate Follows(p: Provider, q: Provider) {
    if p.profileRef.None? then q.profileRef.Some? ==> PageOut(q) && q.nextOffset == 0
    else q.profileRef.Some? && (PageOut(q) ==> PageOut(p) && p.nextOffset < q.nextOffset)
  }

  lemma AsksOn(p: Provider, q: Provider)
    requires Asked(p) && Indexed(q) && Slices(q.trace) && (PageOut(q) ==> LastIsOut(q))
    requires Offsets(q.trace) == Offsets(p.trace) + if PageOut(q) then [q.nextOffset] else []
    requires Follows(p, q)
    ensures Asked(q)
  {
    hide Offsets, Slices, Indexed, LastIsOut, Rising;
    if PageOut(q) {
      RisingNext(Offsets(p.trace), q.nextOffset);
    } else {
      assert Offsets(p.trace) + [] == Offsets(p.trace);
    }
  }

  lemma NextFollows(k: Config, requests: seq<seq<ToolResult>>)
    requires IsOrder(k.order) && requests != [] && RunOk(k, requests[..|requests| - 1])
    ensures Follows(Drive(k, FRESH, requests[..|requests| - 1]), Drive(k, FRESH, requests))
  {
    var front, last := requests[..|requests| - 1], requests[|requests| - 1];
    var p := Drive(k, FRESH, front);
    hide Plan, NoGap, Gap, PageOk, RouteEvidence.Inv, EveryPageTold, Covered;
    if PageOut(p) {
      PageRound(k, p, last);
    } else if p.pagesFinished {
      RouteEvidence.RunBacked(k, front);
      AfterPages(k, p, RouteEvidence.AllResults(front), last);
    } else {
      RouteEvidence.RunBacked(k, front);
      FirstPage(k, p, RouteEvidence.AllResults(front), last);
    }
  }

  lemma NextAsks(k: Config, requests: seq<seq<ToolResult>>)
    requires IsOrder(k.order) && requests != [] && RunOk(k, requests[..|requests| - 1])
    requires Asked(Drive(k, FRESH, requests[..|requests| - 1]))
    ensures Asked(Drive(k, FRESH, requests))
  {
    var p, q := Drive(k, FRESH, requests[..|requests| - 1]), Drive(k, FRESH, requests);
    assert q == Plan(k, p, requests[|requests| - 1]);
    hide Plan, RunOk, Drive, Offsets, LastIsOut, Rising, Follows;
    NextFollows(k, requests);
    PlanAsks(k, p, requests[|requests| - 1]);
    hide Indexed, Slices;
    assert Offsets(p.trace) + [] == Offsets(p.trace);
    AsksOn(p, q);
  }

  lemma {:induction false} RunAsks(k: Config, requests: seq<seq<ToolResult>>)
    requires IsOrder(k.order)
    ensures Asked(Drive(k, FRESH, requests))
    decreases |requests|
  {
    hide Asked, IsOrder, RunOk, Plan;
    if requests == [] {
      assert Asked(FRESH) by { FreshAsks(); }
    } else {
      RunAsks(k, requests[..|requests| - 1]);
      RunIsOk(k, requests[..|requests| - 1]);
      NextAsks(k, requests);
    }
  }

  lemma FreshAsks()
    ensures Asked(FRESH)
  {
  }

  // ----- what is told in turn is read -----

  lemma {:induction false} CoveredIsRead(k: Config, requests: seq<seq<ToolResult>>, b: int)
    requires IsOrder(k.order) && Covered(k, requests, b)
    ensures WasRead(k, requests, b)
    decreases |requests|
  {
    hide IsOrder, TaleOf, Offsets, Indexed, Drive;
    var front, last := requests[..|requests| - 1], requests[|requests| - 1];
    var p := Drive(k, FRESH, front);
    if Covered(k, front, b) {
      CoveredIsRead(k, front, b);
      var o, page :| Tells(k, front, o, page) && o <= b && Reaches(page, b);
      assert Tells(k, requests, o, page);
    } else {
      RunAsks(k, front);
      assert Tells(k, requests, p.nextOffset, Tale(p, last).value);
    }
  }

  /** If no page is told late, what is read is told in turn. */
  lemma {:induction false} ReadIsCovered(k: Config, requests: seq<seq<ToolResult>>, o: int, page: PageInfo, b: int)
    requires IsOrder(k.order) && NoneLate(k, requests) && Tells(k, requests, o, page) && o <= b && Reaches(page, b)
    ensures Covered(k, requests, b)
    decreases |requests|
  {
    hide IsOrder, TaleOf, Offsets, Drive, Reaches;
    var front, last := requests[..|requests| - 1], requests[|requests| - 1];
    var p := Drive(k, FRESH, front);
    if Tells(k, front, o, page) {
      ReadIsCovered(k, front, o, page, b);
    } else {
      RunAsks(k, front);
      var c :| c in p.trace && IsPageAt(c, o) && TaleOf(p, last, Id(Page, c.index)) == Some(page);
      assert c == p.trace[c.index - 1];
    }
  }

  /** Whatever the results: if every page asked for below the reported size is told by the next
      request, a complete route has read all of the long result. */
  lemma ToldIsRead(k: Config, requests: seq<seq<ToolResult>>)
    requires IsOrder(k.order) && RouteComplete(Drive(k, FRESH, requests)) && EveryPageTold(k, requests)
    ensures AllRead(k, requests)
  {
    CoveredIffTold(k, requests);
    hide EveryPageTold, Covered, WasRead, IsOrder, Drive;
    forall b | InResult(Drive(k, FRESH, requests), b) ensures WasRead(k, requests, b) {
      CoveredIsRead(k, requests, b);
    }
  }

  /** If no page is told later than by the next request, also the other way round. */
  lemma ReadIffTold(k: Config, requests: seq<seq<ToolResult>>)
    requires IsOrder(k.order) && RouteComplete(Drive(k, FRESH, requests)) && NoneLate(k, requests)
    ensures AllRead(k, requests) <==> EveryPageTold(k, requests)
  {
    if EveryPageTold(k, requests) {
      ToldIsRead(k, requests);
    }
    CoveredIffTold(k, requests);
    hide EveryPageTold, Covered, Tells, IsOrder, Drive, NoneLate, Reaches;
    if AllRead(k, requests) {
      forall b | InResult(Drive(k, FRESH, requests), b) ensures Covered(k, requests, b) {
        assert WasRead(k, requests, b);
        var o, page :| Tells(k, requests, o, page) && o <= b && Reaches(page, b);
        ReadIsCovered(k, requests, o, page, b);
      }
    }
  }

  // ----- answered by the next request, nothing is late -----

  predicate OnlyOut(p: Provider) {
    forall id | id in p.pending && id.Id? && id.kind.Page? :: PageOut(p) && id == PageId(p)
  }

  lemma {:induction false} ReadsPend(p: Provider, paths: seq<Path>, kind: Kind)
    requires !kind.Page?
    ensures forall id | id in ReadCalls(p, paths, kind).pending :: id in p.pending || (id.Id? && !id.kind.Page?)
    decreases |paths|
  {
    if paths != [] {
      var k := if paths[0].Evidence? then LargeRead else kind;
      var q := if paths[0].Evidence? then p.(largeReadRequested := true) else p;
      ReadsPend(NewCall(q, k, File(paths[0]), Some(paths[0])), paths[1..], k);
    }
  }

  lemma ChosenPends(k: Config, p: Provider)
    requires p.pending == map[]
    ensures OnlyOut(Choose(k, p))
  {
    ChosenPages(k, p);
    if !PageOut(p) {
      if Missing(p) != {} {
        ReadsPend(p, Batch(k, p), Read);
      } else if !p.largeReadRequested {
        ReadsPend(p, [Evidence], Read);
      } else if p.editSucceeded {
        ReadsPend(p, k.order(PostMissing(p)), PostRead);
      }
    }
  }

  lemma {:induction false} AnswerIsResult(results: seq<ToolResult>, id: CallId)
    ensures var r := Answer(results, id); r.Some? ==> r.value in results && r.value.id == id
    decreases |results|
  {
    if results != [] {
      AnswerIsResult(results[..|results| - 1], id);
    }
  }

  /** If every call is answered by the next request, no page is told late. */
  lemma {:induction false} AnsweredIsNotLate(total: nat, k: Config, requests: seq<seq<ToolResult>>)
    requires IsOrder(k.order) && RouteSafety.AllAnswered(total, k, FRESH, requests)
    ensures NoneLate(k, requests) && OnlyOut(Drive(k, FRESH, requests))
    decreases |requests|
  {
    if requests != [] {
      var front, last := requests[..|requests| - 1], requests[|requests| - 1];
      var p := Drive(k, FRESH, front);
      AnsweredIsNotLate(total, k, front);
      RouteSafety.RouteIsGood(total, k, front);
      RouteSafety.HeardIsReady(total, k, p, last);
      assert Heard(k, p, last).pending == map[];
      ChosenPends(k, Heard(k, p, last));
      hide Heard, Choose, IsOrder, RouteSafety.Planned, RouteSafety.Ready;
      forall c | c in p.trace && c.kind.Page? && TaleOf(p, last, Id(Page, c.index)).Some?
        ensures PageOut(p) && c.index == p.callIndex
      {
        AnswerIsResult(last, Id(Page, c.index));
        assert RouteSafety.ResultOk(total, p, Answer(last, Id(Page, c.index)).value);
      }
    }
  }

  // ----- the exact condition, also when pages are told late -----

  /** Where the pages after the `i`-th go on, or the result ends. */
  function End(p: Provider, offs: seq<int>, i: nat): Option<int>
    requires i < |offs|
  {
    if i + 1 == |offs| then p.totalBytes
    else if p.totalBytes.Some? && p.totalBytes.value < offs[i + 1] then p.totalBytes
    else Some(offs[i + 1])
  }

  predicate UpTo(page: PageInfo, end: Option<int>) {
    page.eof || (end.Some? && page.nextOffset.Some? && end.value <= page.nextOffset.value)
  }

  /** Every page asked for below the reported size, or one asked for before it, is told sometime, up
      to where the next page was asked for. */
  ghost predicate NoHole(k: Config, requests: seq<seq<ToolResult>>) {
    var p := Drive(k, FRESH, requests);
    var offs := Offsets(p.trace);
    forall i | 0 <= i < |offs| && InResult(p, offs[i]) ::
      exists j, page | 0 <= j <= i :: Tells(k, requests, offs[j], page) && UpTo(page, End(p, offs, i))
  }

  /** What is told was asked for. */
  lemma {:induction false} ToldWasAsked(k: Config, requests: seq<seq<ToolResult>>, o: int, page: PageInfo)
    requires IsOrder(k.order) && Tells(k, requests, o, page)
    ensures o in Offsets(Drive(k, FRESH, requests).trace)
    decreases |requests|
  {
    var front, last := requests[..|requests| - 1], requests[|requests| - 1];
    var p := Drive(k, FRESH, front);
    hide IsOrder, TaleOf, Offsets, Heard, Choose, IsPageAt;
    if Tells(k, front, o, page) {
      ToldWasAsked(k, front, o, page);
    } else {
      OffsetsAre(p.trace, o);
    }
    RunAsks(k, front);
    PlanAsks(k, p, last);
  }

  /** Some pending page is told to be the last. */
  ghost predicate SomeLast(p: Provider, results: seq<ToolResult>) {
    exists id | id in p.pending && p.pending[id].0.Page? :: TaleOf(p, results, id).Some? && TaleOf(p, results, id).value.eof
  }

  lemma OneEnds(k: Config, p: Provider, a: (Provider, bool), results: seq<ToolResult>, r: ToolResult)
    requires NoLargeRead(a.0) && Removed(p, a.0, results) && (a.0.pagesFinished ==> SomeLast(p, results))
    ensures ObserveOne(k, a, r).0.pagesFinished ==> SomeLast(p, results + [r])
  {
    hide ObserveOne, Answer, NoLargeRead;
    OneRound(k, a, r);
    forall id ensures Answer(results + [r], id) == if Answer(results, id).None? && r.id == id then Some(r) else Answer(results, id) {
      AnswerNext(results, r, id);
    }
    if a.0.pagesFinished {
      var id :| id in p.pending && p.pending[id].0.Page? && TaleOf(p, results, id).Some? && TaleOf(p, results, id).value.eof;
      assert TaleOf(p, results + [r], id) == TaleOf(p, results, id);
    } else if ObserveOne(k, a, r).0.pagesFinished {
      assert TaleOf(p, results + [r], r.id) == r.page;
    }
  }

  lemma {:induction false} EachEnds(k: Config, p: Provider, results: seq<ToolResult>)
    requires PageOk(p) && !p.pagesFinished
    ensures ObserveEach(k, p, results).0.pagesFinished ==> SomeLast(p, results)
    decreases |results|
  {
    hide ObserveOne, SomeLast;
    if results != [] {
      var front, r := results[..|results| - 1], results[|results| - 1];
      assert results == front + [r];
      EachEnds(k, p, front);
      EachHears(k, p, front);
      OneEnds(k, p, ObserveEach(k, p, front), front, r);
    }
  }

  /** Without a reported size, only a page that says so ends the pages. */
  lemma PlanEnds(k: Config, p: Provider, results: seq<ToolResult>)
    requires PageOut(p) && PageOk(p) && p.totalBytes.None?
    ensures Plan(k, p, results).pagesFinished ==> SomeLast(p, results)
  {
    hide Choose, ObserveEach, SomeLast;
    EachEnds(k, p, results);
    EachHears(k, p, results);
    ChosenPages(k, Heard(k, p, results));
  }

  ghost predicate LastTold(k: Config, requests: seq<seq<ToolResult>>) {
    exists o, page :: Tells(k, requests, o, page) && page.eof
  }

  lemma LastIsTold(k: Config, requests: seq<seq<ToolResult>>)
    requires requests != [] && Asked(Drive(k, FRESH, requests[..|requests| - 1]))
    requires RouteEvidence.PendingOk(Drive(k, FRESH, requests[..|requests| - 1]))
    requires SomeLast(Drive(k, FRESH, requests[..|requests| - 1]), requests[|requests| - 1])
    ensures LastTold(k, requests)
  {
    var p, last := Drive(k, FRESH, requests[..|requests| - 1]), requests[|requests| - 1];
    hide TaleOf, Offsets, Indexed, Drive;
    var id :| id in p.pending && p.pending[id].0.Page? && TaleOf(p, last, id).Some? && TaleOf(p, last, id).value.eof;
    var c :| c in p.trace && RouteEvidence.IsCallOf(c, id, p.pending[id].0, p.pending[id].1);
    assert Tells(k, requests, c.arguments.offset, TaleOf(p, last, id).value);
  }

  lemma {:induction false} UnsizedEnds(k: Config, requests: seq<seq<ToolResult>>)
    requires IsOrder(k.order)
    requires Drive(k, FRESH, requests).pagesFinished && Drive(k, FRESH, requests).totalBytes.None?
    ensures LastTold(k, requests)
    decreases |requests|
  {
    var front, last := requests[..|requests| - 1], requests[|requests| - 1];
    var p := Drive(k, FRESH, front);
    RunIsOk(k, front);
    RunAsks(k, front);
    RouteEvidence.RunBacked(k, front);
    var heard := RouteEvidence.AllResults(front);
    hide Plan, PageOk, NoGap, Gap, Asked, SomeLast, Tells, EveryPageTold, Covered, RouteEvidence.LargeOk, RouteEvidence.Backed,
      RouteEvidence.PendingOk, IsOrder;
    if PageOut(p) {
      PageRound(k, p, last);
      PlanEnds(k, p, last);
      LastIsTold(k, requests);
    } else if p.pagesFinished {
      AfterPages(k, p, heard, last);
      UnsizedEnds(k, front);
      var o, page :| Tells(k, front, o, page) && page.eof;
      assert Tells(k, requests, o, page) by { ToldStays(k, requests, o, page); }
    } else {
      FirstPage(k, p, heard, last);
    }
  }

  lemma ToldStays(k: Config, requests: seq<seq<ToolResult>>, o: int, page: PageInfo)
    requires requests != [] && Tells(k, requests[..|requests| - 1], o, page)
    ensures Tells(k, requests, o, page)
  {
  }

  /** The page a byte belongs to: the last one asked for up to it. */
  lemma {:induction false} PieceOf(offs: seq<int>, b: int) returns (i: nat)
    requires Rising(offs) && offs != [] && offs[0] <= b
    ensures i < |offs| && offs[i] <= b && (i + 1 < |offs| ==> b < offs[i + 1])
    decreases |offs|
  {
    var front, last := offs[..|offs| - 1], offs[|offs| - 1];
    if last <= b {
      i := |offs| - 1;
    } else {
      i := PieceOf(front, b);
      assert i + 1 < |offs| - 1 ==> front[i + 1] == offs[i + 1];
    }
  }

  lemma NoHoleIsRead(k: Config, requests: seq<seq<ToolResult>>, b: int)
    requires Asked(Drive(k, FRESH, requests)) && Drive(k, FRESH, requests).profileRef.Some? && NoHole(k, requests)
    requires InResult(Drive(k, FRESH, requests), b)
    ensures WasRead(k, requests, b)
  {
    var p := Drive(k, FRESH, requests);
    var offs := Offsets(p.trace);
    hide Tells, Drive, Offsets, Indexed, Slices, LastIsOut;
    var i := PieceOf(offs, b);
    assert 0 <= offs[i] by { assert i > 0 ==> offs[0] < offs[i]; }
    var j, page :| 0 <= j <= i && Tells(k, requests, offs[j], page) && UpTo(page, End(p, offs, i));
    assert offs[j] <= offs[i];
    assert Reaches(page, b);
  }

  lemma ReadIsNoHole(k: Config, requests: seq<seq<ToolResult>>, i: nat)
    requires IsOrder(k.order) && Drive(k, FRESH, requests).pagesFinished && AllRead(k, requests)
    requires var p := Drive(k, FRESH, requests);
             Asked(p) && i < |Offsets(p.trace)| && InResult(p, Offsets(p.trace)[i])
    ensures var p := Drive(k, FRESH, requests);
            var offs := Offsets(p.trace);
            exists j, page | 0 <= j <= i :: Tells(k, requests, offs[j], page) && UpTo(page, End(p, offs, i))
  {
    var p := Drive(k, FRESH, requests);
    var offs := Offsets(p.trace);
    var end := End(p, offs, i);
    var o, page := TellsEnd(k, requests, i);
    ToldWasAsked(k, requests, o, page);
    hide Tells, Drive, Offsets, Indexed, Slices, LastIsOut, AllRead, IsOrder;
    var j :| 0 <= j < |offs| && offs[j] == o;
    assert j <= i;
  }

  /** The page that reaches the end of the piece. */
  lemma TellsEnd(k: Config, requests: seq<seq<ToolResult>>, i: nat) returns (o: int, page: PageInfo)
    requires IsOrder(k.order) && Drive(k, FRESH, requests).pagesFinished && AllRead(k, requests)
    requires var p := Drive(k, FRESH, requests);
             Asked(p) && i < |Offsets(p.trace)| && InResult(p, Offsets(p.trace)[i])
    ensures var p := Drive(k, FRESH, requests);
            var offs := Offsets(p.trace);
            Tells(k, requests, o, page) && UpTo(page, End(p, offs, i)) && (i + 1 < |offs| ==> o < offs[i + 1])
  {
    var p := Drive(k, FRESH, requests);
    var offs := Offsets(p.trace);
    var end := End(p, offs, i);
    if end.Some? {
      hide Tells, Drive, Offsets, Indexed, Slices, LastIsOut, IsOrder;
      assert InResult(p, end.value - 1);
      assert WasRead(k, requests, end.value - 1);
      o, page :| Tells(k, requests, o, page) && o <= end.value - 1 && Reaches(page, end.value - 1);
    } else {
      UnsizedEnds(k, requests);
      hide Tells, Drive, Offsets, IsOrder;
      o, page :| Tells(k, requests, o, page) && page.eof;
    }
  }

  /** For any results, told at once, late or never: a route reported complete has read all of the
      long result if and only if no page left a hole. */
  lemma CompleteIsReadIff(k: Config, requests: seq<seq<ToolResult>>)
    requires IsOrder(k.order) && RouteComplete(Drive(k, FRESH, requests))
    ensures AllRead(k, requests) <==> NoHole(k, requests)
  {
    RunAsks(k, requests);
    var p := Drive(k, FRESH, requests);
    hide Tells, Drive, Offsets, Asked, IsOrder, WasRead, UpTo, End;
    if NoHole(k, requests) {
      forall b | InResult(p, b) ensures WasRead(k, requests, b) {
        NoHoleIsRead(k, requests, b);
      }
    }
    if AllRead(k, requests) {
      forall i | 0 <= i < |Offsets(p.trace)| && InResult(p, Offsets(p.trace)[i])
        ensures exists j, page | 0 <= j <= i :: Tells(k, requests, Offsets(p.trace)[j], page) && UpTo(page, End(p, Offsets(p.trace), i))
      {
        ReadIsNoHole(k, requests, i);
      }
    }
  }

  /** What may come under an id that counts as seen: it has had a result before. */
  lemma {:induction false} SeenIsGiven(k: Config, requests: seq<seq<ToolResult>>, id: CallId)
    ensures id in Drive(k, FRESH, requests).seen <==> exists r | r in RouteEvidence.AllResults(requests) :: r.id == id
    decreases |requests|
  {
    hide ObserveEach, Choose;
    if requests != [] {
      var front, last := requests[..|requests| - 1], requests[|requests| - 1];
      var p := Drive(k, FRESH, front);
      SeenIsGiven(k, front, id);
      EachSeen(k, p, last, id);
      ChosenSeen(k, Heard(k, p, last));
      assert forall r | r in RouteEvidence.AllResults(requests) :: r in RouteEvidence.AllResults(front) || r in last;
      assert forall r | r in last :: r in RouteEvidence.AllResults(requests);
      assert forall r | r in RouteEvidence.AllResults(front) :: r in RouteEvidence.AllResults(requests);
    }
  }

  lemma ChosenSeen(k: Config, p: Provider)
    ensures Choose(k, p).seen == p.seen
  {
    if !PageOut(p) {
      if Missing(p) != {} {
        ReadCallsKeepPages(p, Batch(k, p), Read);
      } else if !p.largeReadRequested {
        ReadCallsKeepPages(p, [Evidence], Read);
      } else if p.editSucceeded {
        ReadCallsKeepPages(p, k.order(PostMissing(p)), PostRead);
      }
    }
  }

  lemma {:induction false} EachSeen(k: Config, p: Provider, results: seq<ToolResult>, id: CallId)
    ensures id in ObserveEach(k, p, results).0.seen <==> id in p.seen || exists r | r in results :: r.id == id
    decreases |results|
  {
    hide ObserveOne;
    if results != [] {
      var front, r := results[..|results| - 1], results[|results| - 1];
      assert results == front + [r];
      EachSeen(k, p, front, id);
      OneIndex(k, ObserveEach(k, p, front), r);
      assert r in results && forall x | x in results :: x in front || x == r;
      assert forall x | x in front :: x in results;
    }
  }
}
