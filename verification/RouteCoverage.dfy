/** What the pages tell of the long result when each is told in turn, by the request after its
    call: the bytes so covered have no gap exactly if no page below the reported size was left
    untold. RouteReading says what has been read in all. */
module RouteCoverage {
  import opened Wrappers
  import opened ProfileModel
  import RouteEvidence
  import RouteSafety

  // ----- what the answer to a page says -----

  /** The planner's last answer was a page call, at `nextOffset`. */
  predicate PageOut(p: Provider) {
    p.profileRef.Some? && !p.pagesFinished
  }

  function PageId(p: Provider): CallId {
    Id(Page, p.callIndex)
  }

  /** The first result under an id: later ones repeat it. */
  function Answer(results: seq<ToolResult>, id: CallId): Option<ToolResult> {
    if results == [] then None
    else
      var r := Answer(results[..|results| - 1], id);
      if r.None? && results[|results| - 1].id == id then Some(results[|results| - 1]) else r
  }

  /** What the page call under `id` is told, if these results bring the first one under its id
      and that is a success. */
  function TaleOf(p: Provider, results: seq<ToolResult>, id: CallId): Option<PageInfo> {
    var r := Answer(results, id);
    if id in p.seen || r.None? || r.value.isError then None else r.value.page
  }

  /** What the page asked for last is told by the next request. */
  function Tale(p: Provider, results: seq<ToolResult>): Option<PageInfo> {
    TaleOf(p, results, PageId(p))
  }

  /** The page goes on beyond byte `b`, or says that it is the last. */
  predicate Reaches(page: PageInfo, b: int) {
    page.eof || (page.nextOffset.Some? && b < page.nextOffset.value)
  }

  /** The page is told: a success that moves the offset on or is the last. */
  predicate Told(p: Provider, results: seq<ToolResult>) {
    Tale(p, results).Some? && Reaches(Tale(p, results).value, p.nextOffset)
  }

  predicate Covers(p: Provider, results: seq<ToolResult>, b: int) {
    PageOut(p) && p.nextOffset <= b && Tale(p, results).Some? && Reaches(Tale(p, results).value, b)
  }

  /** A byte of the long result; without a reported size it has no end. */
  predicate InResult(p: Provider, b: int) {
    0 <= b && (p.totalBytes.Some? ==> b < p.totalBytes.value)
  }

  /** Byte `b` was in a page that the request after its call told. */
  predicate Covered(k: Config, requests: seq<seq<ToolResult>>, b: int) {
    requests != [] &&
    (Covered(k, requests[..|requests| - 1], b)
     || Covers(Drive(k, FRESH, requests[..|requests| - 1]), requests[|requests| - 1], b))
  }

  ghost predicate AllCovered(k: Config, requests: seq<seq<ToolResult>>) {
    forall b | InResult(Drive(k, FRESH, requests), b) :: Covered(k, requests, b)
  }

  /** Every page asked for below the reported size is told by the next request. */
  predicate EveryPageTold(k: Config, requests: seq<seq<ToolResult>>) {
    requests == [] ||
    (EveryPageTold(k, requests[..|requests| - 1])
     && var p := Drive(k, FRESH, requests[..|requests| - 1]);
        (PageOut(p) && InResult(p, p.nextOffset) ==> Told(p, requests[|requests| - 1])))
  }

  // ----- one request with a page out -----

  /** What holds whenever a page is out. */
  predicate PageOk(p: Provider) {
    && p.profileRef.Some? && 0 <= p.nextOffset && p.lastPageOffset == Some(p.nextOffset)
    && PageId(p) in p.pending && p.pending[PageId(p)] == (Page, None)
    && NoLargeRead(p)
  }

  predicate NoLargeRead(p: Provider) {
    forall id | id in p.pending :: p.pending[id].1 != Some(Evidence)
  }

  predicate OnePage(p: Provider) {
    forall id | id in p.pending && p.pending[id].0.Page? :: id == PageId(p)
  }

  predicate SameRound(p: Provider, q: Provider) {
    && q.profileRef == p.profileRef && q.totalBytes == p.totalBytes && q.lastPageOffset == p.lastPageOffset
    && q.callIndex == p.callIndex
  }

  ghost predicate Removed(p: Provider, q: Provider, results: seq<ToolResult>) {
    && (forall id | id in q.pending :: id in p.pending && q.pending[id] == p.pending[id])
    && (forall id | id in q.pending :: id in p.seen || Answer(results, id).None?)
    && (forall id :: id in q.seen <==> id in p.seen || Answer(results, id).Some?)
    && (forall id | id in p.pending && id !in q.pending :: id in q.seen)
  }

  /** Where the offset is after some results; `tale` is what they tell of the page that is out. */
  predicate Moved(p: Provider, q: Provider, observed: bool, tale: Option<PageInfo>, one: bool) {
    && p.nextOffset <= q.nextOffset && observed == (p.nextOffset < q.nextOffset)
    && (tale.Some? && tale.value.eof ==> q.pagesFinished)
    && (tale.Some? && tale.value.nextOffset.Some? ==> tale.value.nextOffset.value <= q.nextOffset)
    && (one && q.pagesFinished ==> tale.Some? && tale.value.eof)
    && (one && observed ==> tale.Some? && tale.value.nextOffset == Some(q.nextOffset))
  }

  ghost predicate Hears(p: Provider, q: Provider, observed: bool, results: seq<ToolResult>) {
    SameRound(p, q) && Removed(p, q, results) && Moved(p, q, observed, Tale(p, results), OnePage(p))
  }

  lemma AnswerNext(results: seq<ToolResult>, r: ToolResult, id: CallId)
    ensures Answer(results + [r], id) == if Answer(results, id).None? && r.id == id then Some(r) else Answer(results, id)
  {
    assert (results + [r])[..|results|] == results;
  }

  lemma ReadKeepsPages(k: Config, p: Provider, kind: Kind, path: Path, r: ToolResult)
    requires !path.Evidence?
    ensures var q := ReadResult(k, p, kind, path, r);
            q == p.(readPaths := q.readPaths, readFailures := q.readFailures, readContents := q.readContents,
                    postChangeReads := q.postChangeReads)
  {
    hide NoteRead;
    RouteSafety.NoteIds(k, p, kind, path, r);
  }

  /** `r` is the first result of a pending page call, and tells something. */
  predicate TellsPage(p: Provider, r: ToolResult) {
    r.id !in p.seen && r.id in p.pending && p.pending[r.id].0.Page? && !r.isError && r.page.Some?
  }

  /** A result changes no more of the pages than what it is heard for. */
  lemma OneRound(k: Config, a: (Provider, bool), r: ToolResult)
    requires NoLargeRead(a.0)
    ensures var b := ObserveOne(k, a, r);
            && SameRound(a.0, b.0) && b.0.seen == a.0.seen + {r.id}
            && (if r.id in a.0.seen then b == a else b.0.pending == a.0.pending - {r.id})
            && (if TellsPage(a.0, r) then
                  var q := PageResult(a.0, a.1, r.page.value);
                  b.0.nextOffset == q.0.nextOffset && b.0.pagesFinished == q.0.pagesFinished && b.1 == q.1
                else b.0.nextOffset == a.0.nextOffset && b.0.pagesFinished == a.0.pagesFinished && b.1 == a.1)
  {
    hide ReadResult, PageResult;
    if r.id !in a.0.seen && r.id in a.0.pending {
      PendingRound(k, a, r);
    }
  }

  lemma PendingRound(k: Config, a: (Provider, bool), r: ToolResult)
    requires NoLargeRead(a.0) && r.id !in a.0.seen && r.id in a.0.pending
    ensures var t, b := a.0.(seen := a.0.seen + {r.id}, pending := a.0.pending - {r.id}), ObserveOne(k, a, r);
            if TellsPage(a.0, r) then
              var q := PageResult(a.0, a.1, r.page.value);
              b == (t.(nextOffset := q.0.nextOffset, pagesFinished := q.0.pagesFinished), q.1)
            else SameRound(t, b.0) && b.0.seen == t.seen && b.0.pending == t.pending && b.0.nextOffset == t.nextOffset
                 && b.0.pagesFinished == t.pagesFinished && b.1 == a.1
  {
    hide ReadResult, PageResult;
    var t := a.0.(seen := a.0.seen + {r.id}, pending := a.0.pending - {r.id});
    var (kind, path) := a.0.pending[r.id];
    if kind.Page? && r.page.Some? {
      PageIsPage(a.0, t, a.1, r.page.value);
    } else if path.Some? {
      ReadKeepsPages(k, t, kind, path.value, r);
    }
  }

  lemma PageIsPage(p: Provider, q: Provider, observed: bool, page: PageInfo)
    requires q == p.(seen := q.seen, pending := q.pending)
    ensures var (a, b) := (PageResult(p, observed, page), PageResult(q, observed, page));
            && a.1 == b.1 && b.0 == q.(nextOffset := a.0.nextOffset, pagesFinished := a.0.pagesFinished)
  {
  }

  lemma OneHears(k: Config, p: Provider, a: (Provider, bool), results: seq<ToolResult>, r: ToolResult)
    requires PageOk(p) && !p.pagesFinished && Hears(p, a.0, a.1, results)
    ensures var b := ObserveOne(k, a, r); Hears(p, b.0, b.1, results + [r])
  {
    hide ObserveOne, Answer;
    OneRound(k, a, r);
    forall id ensures Answer(results + [r], id) == if Answer(results, id).None? && r.id == id then Some(r) else Answer(results, id) {
      AnswerNext(results, r, id);
    }
  }

  lemma {:induction false} EachHears(k: Config, p: Provider, results: seq<ToolResult>)
    requires PageOk(p) && !p.pagesFinished
    ensures var b := ObserveEach(k, p, results); Hears(p, b.0, b.1, results)
    decreases |results|
  {
    hide Hears, ObserveOne, PageOk;
    if results == [] {
      NoneHeard(p);
    } else {
      var front, r := results[..|results| - 1], results[|results| - 1];
      EachHears(k, p, front);
      OneHears(k, p, ObserveEach(k, p, front), front, r);
      assert front + [r] == results;
    }
  }

  lemma NoneHeard(p: Provider)
    requires !p.pagesFinished
    ensures Hears(p, p, false, [])
  {
  }

  /** A skip moves the offset on, or ends the pages; below the reported size it moves on. */
  lemma Skipped(k: Config, p: Provider)
    requires PageOut(p)
    ensures var q := SkipPage(k, p);
            && q == p.(nextOffset := q.nextOffset, pagesFinished := q.pagesFinished)
            && (!q.pagesFinished ==> p.nextOffset < q.nextOffset)
            && (0 <= p.nextOffset && !InResult(p, p.nextOffset) ==> q.pagesFinished)
  {
  }

  /** What is chosen after the results does not touch the offset, and asks for a page if one is due. */
  lemma ChosenPages(k: Config, p: Provider)
    ensures var q := Choose(k, p);
            && q.profileRef == p.profileRef && q.pagesFinished == p.pagesFinished && q.totalBytes == p.totalBytes
            && q.nextOffset == p.nextOffset
            && (PageOut(p) ==> q.lastPageOffset == Some(p.nextOffset) && q.pending == p.pending[PageId(q) := (Page, None)])
            && (!PageOut(p) ==> q.lastPageOffset == p.lastPageOffset)
  {
    if !PageOut(p) {
      if Missing(p) != {} {
        ReadCallsKeepPages(p, Batch(k, p), Read);
      } else if !p.largeReadRequested {
        ReadCallsKeepPages(p, [Evidence], Read);
      } else if p.editSucceeded {
        ReadCallsKeepPages(p, k.order(PostMissing(p)), PostRead);
      }
    }
  }

  lemma {:induction false} ReadCallsKeepPages(p: Provider, paths: seq<Path>, kind: Kind)
    ensures var q := ReadCalls(p, paths, kind);
            q == p.(callIndex := q.callIndex, pending := q.pending, trace := q.trace, largeReadRequested := q.largeReadRequested)
    decreases |paths|
  {
    if paths != [] {
      var k := if paths[0].Evidence? then LargeRead else kind;
      var q := if paths[0].Evidence? then p.(largeReadRequested := true) else p;
      var next := NewCall(q, k, File(paths[0]), Some(paths[0]));
      assert next == p.(callIndex := next.callIndex, pending := next.pending, trace := next.trace, largeReadRequested := next.largeReadRequested);
      ReadCallsKeepPages(next, paths[1..], k);
    }
  }

  /** A request that comes while a page is out: afterwards the offset is beyond that page and what
      was told of it, or the pages are over. */
  lemma PageRound(k: Config, p: Provider, results: seq<ToolResult>)
    requires PageOut(p) && PageOk(p)
    ensures var q, tale := Plan(k, p, results), Tale(p, results);
            && q.profileRef.Some? && q.totalBytes == p.totalBytes
            && (PageOut(q) ==>
                  && PageOk(q) && p.nextOffset < q.nextOffset
                  && (tale.Some? ==> !tale.value.eof && (tale.value.nextOffset.Some? ==> tale.value.nextOffset.value <= q.nextOffset)))
  {
    hide Choose, SkipPage, ObserveEach, Tale;
    EachHears(k, p, results);
    var (a, observed) := ObserveEach(k, p, results);
    if PageOut(a) {
      Skipped(k, a);
    }
    ChosenPages(k, Heard(k, p, results));
  }

  /** The same when no other page is pending: the pages end, or go on, as they are told; and what
      is asked for beyond the reported size ends them. */
  lemma OnePageRound(k: Config, p: Provider, results: seq<ToolResult>)
    requires PageOut(p) && PageOk(p) && OnePage(p) && (InResult(p, p.nextOffset) ==> Told(p, results))
    ensures var q, tale := Plan(k, p, results), Tale(p, results);
            && (PageOut(q) ==> OnePage(q) && tale.Some? && tale.value.nextOffset == Some(q.nextOffset))
            && (q.pagesFinished && InResult(p, p.nextOffset) ==> tale.value.eof)
  {
    hide Choose, SkipPage, ObserveEach;
    EachHears(k, p, results);
    var (a, observed) := ObserveEach(k, p, results);
    if PageOut(a) {
      Skipped(k, a);
    }
    ChosenPages(k, Heard(k, p, results));
  }

  // ----- before the first page, and after the last -----

  predicate BeforePages(p: Provider) {
    !p.pagesFinished && p.lastPageOffset.None? && p.nextOffset == 0 && (p.profileRef.None? ==> p.totalBytes.None?)
  }

  predicate NoPage(p: Provider) {
    forall id | id in p.pending :: !p.pending[id].0.Page?
  }

  lemma {:induction false} EachBefore(k: Config, p: Provider, results: seq<ToolResult>)
    requires BeforePages(p) && NoPage(p)
    ensures var b := ObserveEach(k, p, results); BeforePages(b.0) && NoPage(b.0) && !b.1
    decreases |results|
  {
    hide ObserveOne;
    if results != [] {
      EachBefore(k, p, results[..|results| - 1]);
      OneBefore(k, ObserveEach(k, p, results[..|results| - 1]), results[|results| - 1]);
    }
  }

  lemma OneBefore(k: Config, a: (Provider, bool), r: ToolResult)
    requires BeforePages(a.0) && NoPage(a.0) && !a.1
    ensures var b := ObserveOne(k, a, r); BeforePages(b.0) && NoPage(b.0) && !b.1
  {
    if r.id !in a.0.seen && r.id in a.0.pending && a.0.pending[r.id].1.Some? {
      var t := a.0.(seen := a.0.seen + {r.id}, pending := a.0.pending - {r.id});
      ReadBefore(k, t, a.0.pending[r.id].0, a.0.pending[r.id].1.value, r);
      hide ReadResult;
    }
  }

  lemma ReadBefore(k: Config, p: Provider, kind: Kind, path: Path, r: ToolResult)
    requires BeforePages(p)
    ensures var q := ReadResult(k, p, kind, path, r); BeforePages(q) && q.pending == p.pending
  {
    hide NoteRead;
    RouteSafety.NoteIds(k, p, kind, path, r);
  }

  lemma FirstPage(k: Config, p: Provider, heard: seq<ToolResult>, results: seq<ToolResult>)
    requires RouteEvidence.Inv(p, heard) && p.profileRef.None? && BeforePages(p)
    ensures var q := Plan(k, p, results);
            && (q.profileRef.None? ==> BeforePages(q))
            && (q.profileRef.Some? ==> PageOut(q) && PageOk(q) && OnePage(q) && q.nextOffset == 0)
  {
    hide Choose, ObserveEach, RouteEvidence.PendingOk, RouteEvidence.Backed;
    EachBefore(k, p, results);
    RouteEvidence.RequestHeard(k, p, heard, results);
    ChosenPages(k, Heard(k, p, results));
  }

  lemma {:induction false} EachAfter(k: Config, p: Provider, results: seq<ToolResult>)
    requires NoLargeRead(p) && p.pagesFinished
    ensures var b := ObserveEach(k, p, results); SameRound(p, b.0) && NoLargeRead(b.0) && b.0.pagesFinished
    decreases |results|
  {
    hide ObserveOne;
    if results != [] {
      EachAfter(k, p, results[..|results| - 1]);
      OneRound(k, ObserveEach(k, p, results[..|results| - 1]), results[|results| - 1]);
    }
  }

  lemma AfterPages(k: Config, p: Provider, heard: seq<ToolResult>, results: seq<ToolResult>)
    requires RouteEvidence.Inv(p, heard) && p.pagesFinished
    ensures var q := Plan(k, p, results); q.profileRef.Some? && q.pagesFinished && q.totalBytes == p.totalBytes
  {
    hide Choose, ObserveEach, RouteEvidence.PendingOk, RouteEvidence.Backed;
    EachAfter(k, p, results);
    ChosenPages(k, Heard(k, p, results));
  }

  // ----- every run -----

  ghost predicate Outset(k: Config, requests: seq<seq<ToolResult>>) {
    var p := Drive(k, FRESH, requests);
    p.profileRef.None? ==> BeforePages(p) && EveryPageTold(k, requests) && forall b :: !Covered(k, requests, b)
  }

  ghost predicate NothingBeyond(k: Config, requests: seq<seq<ToolResult>>) {
    var p := Drive(k, FRESH, requests);
    PageOut(p) ==> PageOk(p) && forall b | Covered(k, requests, b) :: b < p.nextOffset
  }

  ghost predicate NoGap(k: Config, requests: seq<seq<ToolResult>>) {
    var p := Drive(k, FRESH, requests);
    EveryPageTold(k, requests) ==>
      && (PageOut(p) ==> OnePage(p) && forall b | 0 <= b < p.nextOffset :: Covered(k, requests, b))
      && (p.pagesFinished ==> AllCovered(k, requests))
  }

  ghost predicate Gap(k: Config, requests: seq<seq<ToolResult>>) {
    var p := Drive(k, FRESH, requests);
    !EveryPageTold(k, requests) ==>
      exists b :: InResult(p, b) && !Covered(k, requests, b) && (PageOut(p) ==> b < p.nextOffset)
  }

  ghost predicate RunOk(k: Config, requests: seq<seq<ToolResult>>) {
    Outset(k, requests) && NothingBeyond(k, requests) && NoGap(k, requests) && Gap(k, requests)
  }

  lemma CoveredNext(k: Config, requests: seq<seq<ToolResult>>, b: int)
    requires requests != []
    ensures var front := requests[..|requests| - 1];
            Covered(k, requests, b) == (Covered(k, front, b) || Covers(Drive(k, FRESH, front), requests[|requests| - 1], b))
  {
  }

  lemma NextBefore(k: Config, requests: seq<seq<ToolResult>>)
    requires IsOrder(k.order) && requests != [] && RunOk(k, requests[..|requests| - 1])
    requires Drive(k, FRESH, requests[..|requests| - 1]).profileRef.None?
    ensures RunOk(k, requests)
  {
    var front, last := requests[..|requests| - 1], requests[|requests| - 1];
    var p, q := Drive(k, FRESH, front), Drive(k, FRESH, requests);
    assert q == Plan(k, p, last);
    RouteEvidence.RunBacked(k, front);
    FirstPage(k, p, RouteEvidence.AllResults(front), last);
    assert EveryPageTold(k, requests);
    assert forall b :: !Covered(k, requests, b) by {
      forall b ensures !Covered(k, requests, b) { CoveredNext(k, requests, b); }
    }
    hide Plan, RouteEvidence.Inv, EveryPageTold, Covered, Drive, PageOk, OnePage, IsOrder;
  }

  lemma NextAfter(k: Config, requests: seq<seq<ToolResult>>)
    requires IsOrder(k.order) && requests != [] && RunOk(k, requests[..|requests| - 1])
    requires Drive(k, FRESH, requests[..|requests| - 1]).pagesFinished
    ensures RunOk(k, requests)
  {
    var front, last := requests[..|requests| - 1], requests[|requests| - 1];
    var p, q := Drive(k, FRESH, front), Drive(k, FRESH, requests);
    assert q == Plan(k, p, last);
    RouteEvidence.RunBacked(k, front);
    AfterPages(k, p, RouteEvidence.AllResults(front), last);
    assert EveryPageTold(k, requests) == EveryPageTold(k, front);
    forall b ensures Covered(k, requests, b) == Covered(k, front, b) { CoveredNext(k, requests, b); }
    hide Plan, RouteEvidence.Inv, EveryPageTold, Covered, Drive, PageOk, OnePage, IsOrder;
    assert forall b :: InResult(p, b) == InResult(q, b);
  }

  lemma NextPageOk(k: Config, requests: seq<seq<ToolResult>>)
    requires requests != [] && RunOk(k, requests[..|requests| - 1]) && PageOut(Drive(k, FRESH, requests[..|requests| - 1]))
    ensures Outset(k, requests) && NothingBeyond(k, requests)
  {
    hide Plan, Tale, PageOk, NoGap, Gap, EveryPageTold;
    var front, last := requests[..|requests| - 1], requests[|requests| - 1];
    var p, q := Drive(k, FRESH, front), Drive(k, FRESH, requests);
    assert q == Plan(k, p, last);
    PageRound(k, p, last);
    if PageOut(q) {
      forall b | Covered(k, requests, b) ensures b < q.nextOffset { CoveredNext(k, requests, b); }
    }
  }

  lemma NextNoGap(k: Config, requests: seq<seq<ToolResult>>)
    requires requests != [] && RunOk(k, requests[..|requests| - 1]) && PageOut(Drive(k, FRESH, requests[..|requests| - 1]))
    ensures NoGap(k, requests)
  {
    var front, last := requests[..|requests| - 1], requests[|requests| - 1];
    var p, q := Drive(k, FRESH, front), Drive(k, FRESH, requests);
    assert 0 <= p.nextOffset;
    hide Plan, Tale, PageOk, Gap, OnePage;
    if EveryPageTold(k, requests) {
      assert q == Plan(k, p, last);
      PageRound(k, p, last);
      OnePageRound(k, p, last);
      forall b | 0 <= b && (if PageOut(q) then b < q.nextOffset else InResult(q, b)) ensures Covered(k, requests, b) {
        CoveredNext(k, requests, b);
      }
    }
  }

  lemma NextGap(k: Config, requests: seq<seq<ToolResult>>)
    requires requests != [] && RunOk(k, requests[..|requests| - 1]) && PageOut(Drive(k, FRESH, requests[..|requests| - 1]))
    ensures Gap(k, requests)
  {
    hide Plan, Tale, PageOk, NoGap, OnePage;
    var front, last := requests[..|requests| - 1], requests[|requests| - 1];
    var p, q := Drive(k, FRESH, front), Drive(k, FRESH, requests);
    PageRound(k, p, last);
    if !EveryPageTold(k, front) {
      var b :| InResult(p, b) && !Covered(k, front, b) && b < p.nextOffset;
      assert !Covered(k, requests, b);
    } else if !EveryPageTold(k, requests) {
      assert !Covered(k, requests, p.nextOffset);
    }
  }

  lemma {:induction false} RunIsOk(k: Config, requests: seq<seq<ToolResult>>)
    requires IsOrder(k.order)
    ensures RunOk(k, requests)
    decreases |requests|
  {
    hide *;
    if requests == [] {
      FreshOk(k);
    } else {
      RunIsOk(k, requests[..|requests| - 1]);
      assert |requests[..|requests| - 1]| == |requests| - 1;
      NextOk(k, requests);
    }
  }

  lemma NextOk(k: Config, requests: seq<seq<ToolResult>>)
    requires IsOrder(k.order) && requests != [] && RunOk(k, requests[..|requests| - 1])
    ensures RunOk(k, requests)
  {
    hide Plan, Outset, NothingBeyond, NoGap, Gap;
    if PageOut(Drive(k, FRESH, requests[..|requests| - 1])) {
      NextPageOk(k, requests);
      NextNoGap(k, requests);
      NextGap(k, requests);
    } else if Drive(k, FRESH, requests[..|requests| - 1]).pagesFinished {
      NextAfter(k, requests);
    } else {
      NextBefore(k, requests);
    }
  }

  lemma FreshOk(k: Config)
    ensures RunOk(k, [])
  {
  }

  /** Once the pages are over. */
  lemma CoveredIffTold(k: Config, requests: seq<seq<ToolResult>>)
    requires IsOrder(k.order) && Drive(k, FRESH, requests).pagesFinished
    ensures AllCovered(k, requests) <==> EveryPageTold(k, requests)
  {
    RunIsOk(k, requests);
    hide Outset, NothingBeyond, Drive, EveryPageTold, Covered;
  }
}
