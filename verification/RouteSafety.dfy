/** What the planner's trace is, for every run of ProfileModel in which each call is answered by
    the next request. */
module RouteSafety {
  import opened Wrappers
  import opened ProfileModel

  // ----- a good route -----

  function Phase(kind: Kind): nat {
    match kind
    case Read => 0
    case LargeRead => 1
    case Page => 2
    case Edit => 3
    case PostRead => 4
  }

  /** The call is one its kind may make, for a long result of `total` bytes. */
  predicate Fits(total: nat, c: Call) {
    match c.kind
    case Read => c.arguments.File? && c.arguments.path in REQUIRED
    case LargeRead => c.arguments == File(Evidence)
    case Page => c.arguments.Slice? && 0 <= c.arguments.offset <= total && c.arguments.limit > 0
    case Edit => c.arguments.Replace?
    case PostRead => c.arguments.File? && c.arguments.path in REREAD
  }

  /** `b` may come, at once or later, after `a`: in a later phase; or another file of the same
      round of reads; or a page further on. */
  predicate MayFollow(a: Call, b: Call) {
    || Phase(a.kind) < Phase(b.kind)
    || (a.kind == b.kind && (a.kind.Read? || a.kind.PostRead?) && a.arguments != b.arguments)
    || (a.kind == b.kind && a.kind.Page? && a.arguments.Slice? && b.arguments.Slice? && a.arguments.offset < b.arguments.offset)
  }

  predicate GoodRoute(total: nat, trace: seq<Call>) {
    && (forall c | c in trace :: Fits(total, c))
    && (forall i, j | 0 <= i < j < |trace| :: MayFollow(trace[i], trace[j]))
  }

  predicate UpTo(trace: seq<Call>, phase: nat) {
    forall c | c in trace :: Phase(c.kind) <= phase
  }

  lemma RouteGrows(total: nat, trace: seq<Call>, c: Call)
    requires GoodRoute(total, trace) && Fits(total, c) && forall x | x in trace :: MayFollow(x, c)
    ensures GoodRoute(total, trace + [c])
  {
  }

  // ----- what is asked of the results -----

  /** Every pending call is answered; other results repeat old ones; sizes and offsets are those
      of a long result of `total` bytes. */
  predicate Answers(total: nat, p: Provider, results: seq<ToolResult>) {
    && (forall id | id in p.pending :: exists r | r in results :: r.id == id)
    && (forall r | r in results :: ResultOk(total, p, r))
  }

  predicate ResultOk(total: nat, p: Provider, r: ToolResult) {
    && (r.id in p.pending || r.id in p.seen)
    && (r.external.Some? ==> r.external.value.size == Some(total))
    && (r.page.Some? && r.page.value.nextOffset.Some? ==> r.page.value.nextOffset.value <= total)
  }

  predicate AllAnswered(total: nat, k: Config, p: Provider, requests: seq<seq<ToolResult>>) {
    requests == [] ||
    (AllAnswered(total, k, p, requests[..|requests| - 1])
     && Answers(total, Drive(k, p, requests[..|requests| - 1]), requests[|requests| - 1]))
  }

  // ----- between requests -----

  predicate Answered(p: Provider, path: Path) {
    path in p.readPaths || path in p.readFailures
  }

  predicate Reread(p: Provider, path: Path) {
    path in p.postChangeReads || path in p.readFailures
  }

  predicate PathFits(kind: Kind, path: Option<Path>) {
    match kind
    case Read => path.Some? && path.value in REQUIRED
    case LargeRead => path == Some(Evidence)
    case Page => true
    case Edit => true
    case PostRead => path.Some? && path.value in REREAD
  }

  /** The pending calls are all of one kind. */
  predicate OnlyKind(p: Provider, kind: Kind) {
    forall id | id in p.pending :: p.pending[id].0 == kind && PathFits(kind, p.pending[id].1)
  }

  predicate IdsOk(p: Provider) {
    && (forall id | id in p.pending :: id.Id? && id.index <= p.callIndex && id !in p.seen)
    && (forall id | id in p.seen :: id.Id? && id.index <= p.callIndex)
  }

  predicate IsPending(p: Provider, kind: Kind, path: Path) {
    exists id | id in p.pending :: p.pending[id] == (kind, Some(path))
  }

  /** Every file asked for is answered, or being read. */
  predicate ReadsOk(p: Provider) {
    forall c | c in p.trace && c.arguments.File? ::
      && (c.kind.Read? ==> Answered(p, c.arguments.path) || IsPending(p, Read, c.arguments.path))
      && (c.kind.PostRead? ==> Reread(p, c.arguments.path) || IsPending(p, PostRead, c.arguments.path))
  }

  predicate PagesOver(p: Provider) {
    p.profileRef.None? || p.pagesFinished
  }

  predicate PagesUpTo(trace: seq<Call>, offset: int) {
    forall c | c in trace && c.kind.Page? && c.arguments.Slice? :: c.arguments.offset <= offset
  }

  /** What holds of the flags and the trace, with the kind of call that may be pending. */
  predicate StageOk(total: nat, p: Provider) {
    && (!p.largeReadRequested ==>
          p.profileRef.None? && !p.editAttempted && p.lastPageOffset.None? && !p.pagesFinished && UpTo(p.trace, 0) && OnlyKind(p, Read))
    && (p.largeReadRequested ==> Missing(p) == {})
    && (p.largeReadRequested && p.profileRef.None? && !p.editAttempted ==>
          p.lastPageOffset.None? && !p.pagesFinished && UpTo(p.trace, 1) && OnlyKind(p, LargeRead))
    && (p.profileRef.Some? && !p.pagesFinished ==>
          && p.largeReadRequested && !p.editAttempted && p.totalBytes == Some(total) && p.lastPageOffset == Some(p.nextOffset)
          && 0 <= p.nextOffset <= total && PagesUpTo(p.trace, p.nextOffset) && UpTo(p.trace, 2) && OnlyKind(p, Page))
    && (p.profileRef.Some? && p.pagesFinished ==> p.editAttempted)
    && (p.editAttempted && !p.editSucceeded ==> UpTo(p.trace, 3) && OnlyKind(p, Edit))
    && (p.editAttempted ==> p.largeReadRequested && PagesOver(p))
    && (p.editSucceeded ==> p.editAttempted && OnlyKind(p, PostRead))
  }

  predicate Planned(total: nat, p: Provider) {
    IdsOk(p) && GoodRoute(total, p.trace) && ReadsOk(p) && StageOk(total, p)
  }

  // ----- hearing the results -----

  /** Only what results may change has changed. */
  predicate SameElse(p: Provider, q: Provider) {
    q == p.(pending := q.pending, seen := q.seen, readPaths := q.readPaths, readFailures := q.readFailures,
            readContents := q.readContents, postChangeReads := q.postChangeReads, profileRef := q.profileRef,
            totalBytes := q.totalBytes, nextOffset := q.nextOffset, pagesFinished := q.pagesFinished,
            editSucceeded := q.editSucceeded)
  }

  predicate IdsProgress(p: Provider, q: Provider) {
    && (forall id | id in q.pending :: id in p.pending && q.pending[id] == p.pending[id])
    && q.seen == p.seen + (p.pending.Keys - q.pending.Keys)
  }

  predicate ReadsProgress(kind: Kind, p: Provider, q: Provider) {
    && p.readPaths <= q.readPaths && p.readFailures <= q.readFailures && p.postChangeReads <= q.postChangeReads
    && (forall id | id in p.pending && id !in q.pending && p.pending[id].1.Some? ::
          && (kind.Read? || kind.LargeRead? || kind.PostRead? ==> Answered(q, p.pending[id].1.value))
          && (kind.PostRead? ==> Reread(q, p.pending[id].1.value)))
  }

  predicate RefProgress(total: nat, kind: Kind, p: Provider, q: Provider) {
    if kind.LargeRead? then
      || (q.profileRef == p.profileRef && q.totalBytes == p.totalBytes && q.nextOffset == p.nextOffset)
      || (q.profileRef.Some? && q.totalBytes == Some(total) && q.nextOffset == 0)
    else q.profileRef == p.profileRef && q.totalBytes == p.totalBytes
  }

  predicate PageProgress(total: nat, kind: Kind, p: Provider, q: Provider, observed: bool) {
    if kind.Page? then
      && (if observed then p.nextOffset < q.nextOffset <= total else q.nextOffset == p.nextOffset)
      && (p.pagesFinished ==> q.pagesFinished)
    else !observed && q.pagesFinished == p.pagesFinished && (kind.LargeRead? || q.nextOffset == p.nextOffset)
  }

  /** What the results so far have changed, while only calls of `kind` are pending. */
  predicate Progress(total: nat, kind: Kind, p: Provider, q: Provider, observed: bool) {
    && SameElse(p, q) && IdsProgress(p, q) && ReadsProgress(kind, p, q)
    && RefProgress(total, kind, p, q) && PageProgress(total, kind, p, q, observed)
    && (!kind.Edit? ==> q.editSucceeded == p.editSucceeded)
  }

  lemma OneProgress(total: nat, k: Config, kind: Kind, p: Provider, a: (Provider, bool), r: ToolResult)
    requires IdsOk(p) && OnlyKind(p, kind) && ResultOk(total, p, r) && Progress(total, kind, p, a.0, a.1)
    ensures var b := ObserveOne(k, a, r);
            Progress(total, kind, p, b.0, b.1) && r.id !in b.0.pending && b.0.pending.Keys <= a.0.pending.Keys
  {
    if r.id in a.0.seen {
      assert r.id !in a.0.pending by {
        hide ReadsProgress, RefProgress, PageProgress, SameElse;
      }
    } else {
      assert r.id in a.0.pending by {
        hide ReadsProgress, RefProgress, PageProgress, SameElse;
      }
      hide Progress;
      NextIds(k, a, r);
      match kind {
        case Page => NextPageResult(total, k, p, a, r);
        case Edit => NextEditResult(total, k, p, a, r);
        case _ => NextReadResult(total, k, kind, p, a, r);
      }
    }
  }

  lemma NextIds(k: Config, a: (Provider, bool), r: ToolResult)
    requires r.id !in a.0.seen && r.id in a.0.pending
    ensures var q := ObserveOne(k, a, r).0;
            q.pending == a.0.pending - {r.id} && q.seen == a.0.seen + {r.id}
  {
    var p' := a.0.(seen := a.0.seen + {r.id}, pending := a.0.pending - {r.id});
    var (kind, path) := a.0.pending[r.id];
    if path.Some? {
      ReadResultIds(k, p', kind, path.value, r);
      hide ReadResult;
    }
    hide PageResult;
    if kind.Page? && !r.isError && r.page.Some? {
      PageIds(p', a.1, r.page.value);
    }
  }

  lemma PageIds(p: Provider, observed: bool, page: PageInfo)
    ensures var q := PageResult(p, observed, page).0; q.pending == p.pending && q.seen == p.seen
  {
  }

  lemma ReadResultIds(k: Config, p: Provider, kind: Kind, path: Path, r: ToolResult)
    ensures var q := ReadResult(k, p, kind, path, r); q.pending == p.pending && q.seen == p.seen && SameElse(p, q)
    ensures var q := ReadResult(k, p, kind, path, r);
            q.pagesFinished == p.pagesFinished && q.editSucceeded == p.editSucceeded
  {
    hide NoteRead;
    NoteIds(k, p, kind, path, r);
  }

  lemma NoteIds(k: Config, p: Provider, kind: Kind, path: Path, r: ToolResult)
    ensures var q := NoteRead(k, p, kind, path, r);
            q == p.(readPaths := q.readPaths, readFailures := q.readFailures, readContents := q.readContents,
                    postChangeReads := q.postChangeReads)
  {
    hide NoteContent, NotePath;
    PathIds(p, kind, path);
    ContentIds(k, NotePath(p, kind, path), path, r);
  }

  lemma PathIds(p: Provider, kind: Kind, path: Path)
    ensures var q := NotePath(p, kind, path); q == p.(readPaths := q.readPaths, postChangeReads := q.postChangeReads)
  {
  }

  lemma ContentIds(k: Config, p: Provider, path: Path, r: ToolResult)
    ensures var q := NoteContent(k, p, path, r); q == p.(readContents := q.readContents)
  {
  }

  lemma IdsStep(p: Provider, a: Provider, q: Provider, id: CallId)
    requires IdsOk(p) && IdsProgress(p, a) && id in a.pending && id !in a.seen
    requires q.pending == a.pending - {id} && q.seen == a.seen + {id}
    ensures IdsProgress(p, q)
  {
  }

  lemma NextReadResult(total: nat, k: Config, kind: Kind, p: Provider, a: (Provider, bool), r: ToolResult)
    requires IdsOk(p) && OnlyKind(p, kind) && ResultOk(total, p, r) && Progress(total, kind, p, a.0, a.1)
    requires r.id !in a.0.seen && r.id in a.0.pending && (kind.Read? || kind.LargeRead? || kind.PostRead?)
    ensures var b := ObserveOne(k, a, r); Progress(total, kind, p, b.0, b.1)
  {
    var b := ObserveOne(k, a, r);
    var path := a.0.pending[r.id].1.value;
    var t := a.0.(seen := a.0.seen + {r.id}, pending := a.0.pending - {r.id});
    assert a.0.pending[r.id] == p.pending[r.id];
    assert b == (ReadResult(k, t, kind, path, r), a.1);
    ReadResultIds(k, t, kind, path, r);
    IdsStep(p, a.0, b.0, r.id);
    ReadsStep(k, kind, p, a.0, t, r);
    RefStep(total, k, kind, p, a.0, t, path, r);
    hide IdsProgress, ReadsProgress, RefProgress, ReadResult, IdsOk;
  }

  lemma RefStep(total: nat, k: Config, kind: Kind, p: Provider, a: Provider, t: Provider, path: Path, r: ToolResult)
    requires RefProgress(total, kind, p, a) && PathFits(kind, Some(path)) && (kind.Read? || kind.LargeRead? || kind.PostRead?)
    requires t == a.(seen := t.seen, pending := t.pending) && (r.external.Some? ==> r.external.value.size == Some(total))
    ensures var q := ReadResult(k, t, kind, path, r);
            RefProgress(total, kind, p, q) && (!kind.LargeRead? ==> q.nextOffset == t.nextOffset)
  {
    assert path.Evidence? <==> kind.LargeRead?;
  }

  /** A file that is read is answered, and nothing that was is forgotten. */
  predicate Marks(kind: Kind, t: Provider, q: Provider, path: Path) {
    && q.pending == t.pending && Answered(q, path) && (kind.PostRead? ==> Reread(q, path))
    && t.readPaths <= q.readPaths && t.readFailures <= q.readFailures && t.postChangeReads <= q.postChangeReads
  }

  lemma NoteMarks(k: Config, t: Provider, kind: Kind, path: Path, r: ToolResult)
    ensures Marks(kind, t, NoteRead(k, t, kind, path, r), path)
  {
  }

  lemma ReadMarks(k: Config, t: Provider, kind: Kind, path: Path, r: ToolResult)
    ensures Marks(kind, t, ReadResult(k, t, kind, path, r), path)
  {
    hide NoteRead;
    NoteMarks(k, t, kind, path, r);
  }

  lemma ReadsStep(k: Config, kind: Kind, p: Provider, a: Provider, t: Provider, r: ToolResult)
    requires ReadsProgress(kind, p, a) && r.id in a.pending && r.id in p.pending && a.pending[r.id] == p.pending[r.id]
    requires p.pending[r.id].1.Some? && t == a.(seen := a.seen + {r.id}, pending := a.pending - {r.id})
    ensures ReadsProgress(kind, p, ReadResult(k, t, kind, p.pending[r.id].1.value, r))
  {
    hide ReadResult;
    var q := ReadResult(k, t, kind, p.pending[r.id].1.value, r);
    ReadMarks(k, t, kind, p.pending[r.id].1.value, r);
    forall id | id in p.pending && id !in q.pending && p.pending[id].1.Some?
      ensures (kind.Read? || kind.LargeRead? || kind.PostRead? ==> Answered(q, p.pending[id].1.value))
      ensures kind.PostRead? ==> Reread(q, p.pending[id].1.value)
    {
      assert id == r.id || id !in a.pending;
    }
  }

  lemma NextPageResult(total: nat, k: Config, p: Provider, a: (Provider, bool), r: ToolResult)
    requires IdsOk(p) && OnlyKind(p, Page) && ResultOk(total, p, r) && Progress(total, Page, p, a.0, a.1)
    requires r.id !in a.0.seen && r.id in a.0.pending
    ensures var b := ObserveOne(k, a, r); Progress(total, Page, p, b.0, b.1)
  {
    assert a.0.pending[r.id] == p.pending[r.id];
    var t := a.0.(seen := a.0.seen + {r.id}, pending := a.0.pending - {r.id});
    var b := ObserveOne(k, a, r);
    assert b == if r.isError || r.page.None? then (t, a.1) else PageResult(t, a.1, r.page.value);
    hide ObserveOne;
    PageMoves(total, p, a, t, r);
    IdsStep(p, a.0, b.0, r.id);
    PageReads(p, a.0, b.0, r.id);
    hide IdsProgress, ReadsProgress, IdsOk, OnlyKind, PageProgress, PageResult;
  }

  lemma PageMoves(total: nat, p: Provider, a: (Provider, bool), t: Provider, r: ToolResult)
    requires ResultOk(total, p, r) && PageProgress(total, Page, p, a.0, a.1)
    requires t == a.0.(seen := t.seen, pending := t.pending)
    ensures var b := if r.isError || r.page.None? then (t, a.1) else PageResult(t, a.1, r.page.value);
            && PageProgress(total, Page, p, b.0, b.1)
            && b.0 == t.(nextOffset := b.0.nextOffset, pagesFinished := b.0.pagesFinished)
  {
  }

  lemma PageReads(p: Provider, a: Provider, q: Provider, id: CallId)
    requires ReadsProgress(Page, p, a) && SameElse(a, q)
    requires q.readPaths == a.readPaths && q.readFailures == a.readFailures && q.postChangeReads == a.postChangeReads
    ensures ReadsProgress(Page, p, q)
  {
  }

  lemma NextEditResult(total: nat, k: Config, p: Provider, a: (Provider, bool), r: ToolResult)
    requires IdsOk(p) && OnlyKind(p, Edit) && ResultOk(total, p, r) && Progress(total, Edit, p, a.0, a.1)
    requires r.id !in a.0.seen && r.id in a.0.pending
    ensures var b := ObserveOne(k, a, r); Progress(total, Edit, p, b.0, b.1)
  {
    IdsStep(p, a.0, ObserveOne(k, a, r).0, r.id);
  }

  lemma {:induction false} EachProgress(total: nat, k: Config, kind: Kind, p: Provider, results: seq<ToolResult>)
    requires IdsOk(p) && OnlyKind(p, kind) && forall r | r in results :: ResultOk(total, p, r)
    ensures var b := ObserveEach(k, p, results);
            Progress(total, kind, p, b.0, b.1) && forall r | r in results :: r.id !in b.0.pending
    decreases |results|
  {
    hide Progress, ObserveOne, ResultOk, IdsOk, OnlyKind;
    if results == [] {
      NoProgress(total, kind, p);
    } else {
      var front, r := results[..|results| - 1], results[|results| - 1];
      assert results == front + [r];
      EachProgress(total, k, kind, p, front);
      OneProgress(total, k, kind, p, ObserveEach(k, p, front), r);
    }
  }

  lemma NoProgress(total: nat, kind: Kind, p: Provider)
    ensures Progress(total, kind, p, p, false)
  {
  }

  // ----- after the results, before the plan -----

  /** Nothing is pending; the next call may be chosen from the flags alone. */
  predicate Ready(total: nat, p: Provider) {
    && p.pending == map[] && IdsOk(p) && GoodRoute(total, p.trace) && ReadsOk(p)
    && (!p.largeReadRequested ==>
          p.profileRef.None? && !p.editAttempted && p.lastPageOffset.None? && !p.pagesFinished && UpTo(p.trace, 0))
    && (p.largeReadRequested ==> Missing(p) == {})
    && (!p.editAttempted ==> UpTo(p.trace, 2))
    && (p.profileRef.Some? && !p.pagesFinished ==>
          && p.largeReadRequested && !p.editAttempted && p.totalBytes == Some(total)
          && 0 <= p.nextOffset <= total && PagesUpTo(p.trace, p.nextOffset - 1))
    && (p.editAttempted ==> p.largeReadRequested && PagesOver(p))
    && (p.editAttempted && !p.editSucceeded ==> UpTo(p.trace, 3))
    && (p.editSucceeded ==> p.editAttempted)
  }

  function PendingKind(p: Provider): Kind {
    if !p.largeReadRequested then Read
    else if p.profileRef.Some? && !p.pagesFinished then Page
    else if !p.editAttempted then LargeRead
    else if !p.editSucceeded then Edit
    else PostRead
  }

  lemma PendingIsOne(total: nat, p: Provider)
    requires StageOk(total, p)
    ensures OnlyKind(p, PendingKind(p))
  {
  }

  /** With every call answered, nothing is pending and every file asked for is answered. */
  lemma AllHeard(total: nat, k: Config, p: Provider, results: seq<ToolResult>)
    requires Planned(total, p) && Answers(total, p, results)
    ensures var (q, observed) := ObserveEach(k, p, results);
            && Progress(total, PendingKind(p), p, q, observed)
            && q.pending == map[] && IdsOk(q) && ReadsOk(q)
  {
    var kind := PendingKind(p);
    PendingIsOne(total, p);
    EachProgress(total, k, kind, p, results);
    var q := ObserveEach(k, p, results).0;
    assert q.pending == map[] by {
      hide ReadsProgress, RefProgress, PageProgress, StageOk, ReadsOk, GoodRoute, OnlyKind;
      forall id | id in p.pending ensures id !in q.pending {
        var r :| r in results && r.id == id;
      }
    }
    HeardReads(kind, p, q);
    assert IdsOk(q);
  }

  lemma HeardReads(kind: Kind, p: Provider, q: Provider)
    requires OnlyKind(p, kind) && ReadsOk(p) && SameElse(p, q) && ReadsProgress(kind, p, q) && q.pending == map[]
    ensures ReadsOk(q)
  {
    forall c | c in q.trace && c.arguments.File?
      ensures c.kind.Read? ==> Answered(q, c.arguments.path)
      ensures c.kind.PostRead? ==> Reread(q, c.arguments.path)
    {
      var path := c.arguments.path;
      if c.kind.Read? && !Answered(p, path) {
        var id :| id in p.pending && p.pending[id] == (Read, Some(path));
        assert id !in q.pending;
      }
      if c.kind.PostRead? && !Reread(p, path) {
        var id :| id in p.pending && p.pending[id] == (PostRead, Some(path));
        assert id !in q.pending;
      }
    }
  }

  lemma HeardIsReady(total: nat, k: Config, p: Provider, results: seq<ToolResult>)
    requires Planned(total, p) && Answers(total, p, results)
    ensures Ready(total, Heard(k, p, results))
  {
    hide IdsOk, GoodRoute, Answers, IdsProgress, OnlyKind, ReadsOk;
    AllHeard(total, k, p, results);
    var (q, observed) := ObserveEach(k, p, results);
    var r := Observe(k, p, results);
    SameIds(q, r.(requestIndex := r.requestIndex + 1));
    assert Missing(q) <= Missing(p);
  }

  lemma SameIds(q: Provider, r: Provider)
    requires IdsOk(q) && ReadsOk(q) && q.pending == map[]
    requires r == q.(requestIndex := r.requestIndex, nextOffset := r.nextOffset, pagesFinished := r.pagesFinished)
    ensures IdsOk(r) && ReadsOk(r)
  {
  }

  // ----- the choice -----

  /** A call of `kind` for each of `paths` may be made now. */
  predicate MayRead(p: Provider, paths: seq<Path>, kind: Kind) {
    && (forall path | path in paths :: PathFits(kind, Some(path)))
    && (forall i, j | 0 <= i < j < |paths| :: paths[i] != paths[j])
    && (forall c, path | c in p.trace && path in paths ::
          Phase(c.kind) < Phase(kind) || (c.kind == kind && c.arguments != File(path)))
  }

  lemma NewReadKeeps(total: nat, p: Provider, path: Path, kind: Kind)
    requires (kind.Read? || kind.PostRead?) && PathFits(kind, Some(path)) && MayRead(p, [path], kind)
    requires IdsOk(p) && GoodRoute(total, p.trace) && ReadsOk(p) && OnlyKind(p, kind)
    ensures var q := NewCall(p, kind, File(path), Some(path));
            IdsOk(q) && GoodRoute(total, q.trace) && ReadsOk(q) && OnlyKind(q, kind)
  {
    var c := Call(p.callIndex + 1, kind, File(path));
    assert path in [path];
    RouteGrows(total, p.trace, c);
    NewPending(p, path, kind);
  }

  lemma NewPending(p: Provider, path: Path, kind: Kind)
    requires (kind.Read? || kind.PostRead?) && IdsOk(p) && ReadsOk(p) && OnlyKind(p, kind) && PathFits(kind, Some(path))
    ensures var q := NewCall(p, kind, File(path), Some(path)); IdsOk(q) && ReadsOk(q) && OnlyKind(q, kind)
  {
    var q := NewCall(p, kind, File(path), Some(path));
    var id := Id(kind, p.callIndex + 1);
    assert id !in p.pending;
    assert q.pending[id] == (kind, Some(path));
    forall c | c in p.trace && c.arguments.File?
      ensures c.kind.Read? ==> Answered(q, c.arguments.path) || IsPending(q, Read, c.arguments.path)
      ensures c.kind.PostRead? ==> Reread(q, c.arguments.path) || IsPending(q, PostRead, c.arguments.path)
    {
      StillPending(p, q, Read, c.arguments.path);
      StillPending(p, q, PostRead, c.arguments.path);
    }
    assert IsPending(q, kind, path);
  }

  lemma StillPending(p: Provider, q: Provider, kind: Kind, path: Path)
    requires forall id | id in p.pending :: id in q.pending && q.pending[id] == p.pending[id]
    ensures IsPending(p, kind, path) ==> IsPending(q, kind, path)
  {
    if IsPending(p, kind, path) {
      var id :| id in p.pending && p.pending[id] == (kind, Some(path));
      assert q.pending[id] == (kind, Some(path));
    }
  }

  lemma {:induction false} ReadCallsKeep(total: nat, p: Provider, paths: seq<Path>, kind: Kind)
    requires (kind.Read? || kind.PostRead?) && MayRead(p, paths, kind)
    requires IdsOk(p) && GoodRoute(total, p.trace) && ReadsOk(p) && OnlyKind(p, kind)
    ensures var q := ReadCalls(p, paths, kind);
            && IdsOk(q) && GoodRoute(total, q.trace) && ReadsOk(q) && OnlyKind(q, kind)
            && q == p.(callIndex := q.callIndex, pending := q.pending, trace := q.trace)
            && (UpTo(p.trace, Phase(kind)) ==> UpTo(q.trace, Phase(kind)))
    decreases |paths|
  {
    hide IdsOk, GoodRoute, ReadsOk, OnlyKind;
    if paths != [] {
      var path := paths[0];
      assert path in paths && PathFits(kind, Some(path));
      assert path != Evidence;
      NewReadKeeps(total, p, path, kind);
      var q := NewCall(p, kind, File(path), Some(path));
      assert q.trace == p.trace + [Call(p.callIndex + 1, kind, File(path))];
      MayReadRest(p, paths, kind);
      ReadCallsKeep(total, q, paths[1..], kind);
    }
  }

  lemma MayReadRest(p: Provider, paths: seq<Path>, kind: Kind)
    requires paths != [] && MayRead(p, paths, kind)
    ensures MayRead(NewCall(p, kind, File(paths[0]), Some(paths[0])), paths[1..], kind)
  {
    var rest := paths[1..];
    forall path | path in rest ensures path in paths && path != paths[0] {
      var i :| 0 <= i < |rest| && rest[i] == path;
      assert paths[i + 1] == path;
    }
  }

  lemma PageChosen(total: nat, k: Config, p: Provider)
    requires Ready(total, p) && p.profileRef.Some? && !p.pagesFinished
    ensures Planned(total, NextPage(k, p))
  {
    var q := NextPage(k, p);
    var c := Call(p.callIndex + 1, Page, Slice(p.profileRef.value, p.nextOffset, PageLimit(k.seed + p.pageCalls)));
    assert q.trace == p.trace + [c];
    forall x | x in p.trace ensures MayFollow(x, c) {
      assert Fits(total, x);
    }
    RouteGrows(total, p.trace, c);
    SameReads(p, q, c, None);
  }

  /** A call that reads no file, when nothing is pending. */
  lemma SameReads(p: Provider, q: Provider, c: Call, path: Option<Path>)
    requires p.pending == map[] && IdsOk(p) && ReadsOk(p) && !c.kind.Read? && !c.kind.PostRead? && PathFits(c.kind, path)
    requires c.index == p.callIndex + 1
    requires q.trace == p.trace + [c] && q.callIndex == c.index && q.pending == map[Id(c.kind, c.index) := (c.kind, path)]
    requires q.seen == p.seen && q.readPaths == p.readPaths && q.readFailures == p.readFailures && q.postChangeReads == p.postChangeReads
    ensures IdsOk(q) && ReadsOk(q) && OnlyKind(q, c.kind)
  {
  }

  lemma ReadsChosen(total: nat, k: Config, p: Provider)
    requires IsOrder(k.order) && Ready(total, p) && Missing(p) != {}
    ensures Planned(total, ReadCalls(p, Batch(k, p), Read))
  {
    var paths := Batch(k, p);
    var all := k.order(Missing(p));
    assert forall path | path in paths :: path in all;
    assert MayRead(p, paths, Read) by {
      forall c, path | c in p.trace && path in paths ensures c.kind.Read? && c.arguments != File(path) {
        assert path in Missing(p);
      }
    }
    ReadCallsKeep(total, p, paths, Read);
  }

  lemma LargeReadChosen(total: nat, p: Provider)
    requires Ready(total, p) && Missing(p) == {} && !p.largeReadRequested
    ensures Planned(total, ReadCalls(p, [Evidence], Read))
  {
    var q := ReadCalls(p, [Evidence], Read);
    var c := Call(p.callIndex + 1, LargeRead, File(Evidence));
    assert [Evidence][1..] == [];
    assert q == NewCall(p.(largeReadRequested := true), LargeRead, File(Evidence), Some(Evidence));
    RouteGrows(total, p.trace, c);
    SameReads(p, q, c, Some(Evidence));
  }

  lemma PostReadsChosen(total: nat, k: Config, p: Provider)
    requires IsOrder(k.order) && Ready(total, p) && p.editSucceeded
    ensures Planned(total, ReadCalls(p, k.order(PostMissing(p)), PostRead))
  {
    var paths := k.order(PostMissing(p));
    assert MayRead(p, paths, PostRead) by {
      forall c, path | c in p.trace && path in paths
        ensures Phase(c.kind) < 4 || (c.kind.PostRead? && c.arguments != File(path))
      {
        assert path in PostMissing(p);
      }
    }
    ReadCallsKeep(total, p, paths, PostRead);
  }

  lemma EditChosen(total: nat, k: Config, p: Provider)
    requires Ready(total, p) && PagesOver(p) && p.largeReadRequested && !p.editAttempted
    ensures Planned(total, TryEdit(k, p))
  {
    var q := TryEdit(k, p);
    if q.trace == p.trace {
      assert q == p.(editAttempted := true);
    } else {
      var c := q.trace[|p.trace|];
      assert q.trace == p.trace + [c];
      RouteGrows(total, p.trace, c);
      SameReads(p, q, c, Some(Implementation));
    }
  }

  lemma ChosenIsPlanned(total: nat, k: Config, p: Provider)
    requires IsOrder(k.order) && Ready(total, p)
    ensures Planned(total, Choose(k, p))
  {
    if p.profileRef.Some? && !p.pagesFinished {
      PageChosen(total, k, p);
    } else if Missing(p) != {} {
      ReadsChosen(total, k, p);
    } else if !p.largeReadRequested {
      LargeReadChosen(total, p);
    } else if p.editSucceeded {
      PostReadsChosen(total, k, p);
    } else if !p.editAttempted {
      EditChosen(total, k, p);
    }
  }

  // ----- every run -----

  lemma FreshIsPlanned(total: nat)
    ensures Planned(total, FRESH)
  {
  }

  /** For any results, as long as every call is answered by the next request: evidence files
      first, each once; then one large read; then pages at strictly increasing offsets; then at
      most one edit; then the two files again. */
  lemma {:induction false} RouteIsGood(total: nat, k: Config, requests: seq<seq<ToolResult>>)
    requires IsOrder(k.order) && AllAnswered(total, k, FRESH, requests)
    ensures Planned(total, Drive(k, FRESH, requests)) && GoodRoute(total, Drive(k, FRESH, requests).trace)
    decreases |requests|
  {
    hide Planned, Answers, Plan, IsOrder;
    if requests == [] {
      FreshIsPlanned(total);
    } else {
      var front, last := requests[..|requests| - 1], requests[|requests| - 1];
      RouteIsGood(total, k, front);
      PlanPlanned(total, k, Drive(k, FRESH, front), last);
    }
    PlannedIsGood(total, Drive(k, FRESH, requests));
  }

  /** The next answer, if every call was answered. */
  lemma PlanPlanned(total: nat, k: Config, p: Provider, results: seq<ToolResult>)
    requires IsOrder(k.order) && Planned(total, p) && Answers(total, p, results)
    ensures Planned(total, Plan(k, p, results))
  {
    hide Planned, Answers, Ready, Choose, Heard, IsOrder;
    HeardIsReady(total, k, p, results);
    ChosenIsPlanned(total, k, Heard(k, p, results));
  }

  lemma PlannedIsGood(total: nat, p: Provider)
    requires Planned(total, p)
    ensures GoodRoute(total, p.trace)
  {
  }

  // ----- it stops -----

  /** A number below `total + 9` for each call a good route can hold. */
  function Code(total: nat, c: Call): int {
    match c.kind
    case Read => if c.arguments.File? then PathCode(c.arguments.path) else 0
    case LargeRead => 4
    case Page => 5 + if c.arguments.Slice? then c.arguments.offset else 0
    case Edit => total + 6
    case PostRead => total + 7 + if c.arguments == File(TestPublicApi) then 0 else 1
  }

  function PathCode(path: Path): nat {
    match path
    case PublicApi => 0
    case Implementation => 1
    case TestPublicApi => 2
    case EarlyConstraint => 3
    case Evidence => 4
  }

  lemma CodesDiffer(total: nat, a: Call, b: Call)
    requires Fits(total, a) && Fits(total, b) && MayFollow(a, b)
    ensures Code(total, a) != Code(total, b)
  {
  }

  /** Different numbers below `n` are at most `n` many. */
  lemma {:induction false} Pigeonhole(s: seq<int>, n: nat)
    requires forall i | 0 <= i < |s| :: 0 <= s[i] < n
    requires forall i, j | 0 <= i < j < |s| :: s[i] != s[j]
    ensures |s| <= n
    decreases n
  {
    if s != [] {
      assert 0 <= s[0] < n;
      if i :| 0 <= i < |s| && s[i] == n - 1 {
        var t := s[..i] + s[i + 1..];
        forall k | 0 <= k < |t| ensures 0 <= t[k] < n - 1 {
          assert t[k] == s[if k < i then k else k + 1];
        }
        forall k, l | 0 <= k < l < |t| ensures t[k] != t[l] {
          assert t[k] == s[if k < i then k else k + 1] && t[l] == s[if l < i then l else l + 1];
        }
        Pigeonhole(t, n - 1);
      } else {
        Pigeonhole(s, n - 1);
      }
    }
  }

  /** At most four reads, one large read, one page more than the result has bytes, one edit and
      two reads after it. */
  lemma RouteIsShort(total: nat, trace: seq<Call>)
    requires GoodRoute(total, trace)
    ensures |trace| <= total + 9
  {
    hide Fits, MayFollow, Code;
    var codes := seq(|trace|, i requires 0 <= i < |trace| => Code(total, trace[i]));
    forall i | 0 <= i < |trace| ensures 0 <= codes[i] < total + 9 {
      assert trace[i] in trace;
      InRange(total, trace[i]);
    }
    forall i, j | 0 <= i < j < |trace| ensures codes[i] != codes[j] {
      assert trace[i] in trace && trace[j] in trace;
      CodesDiffer(total, trace[i], trace[j]);
    }
    Pigeonhole(codes, total + 9);
  }

  lemma InRange(total: nat, c: Call)
    requires Fits(total, c)
    ensures 0 <= Code(total, c) < total + 9
  {
  }

  predicate Finished(p: Provider) {
    && p.pending == map[] && p.largeReadRequested && Missing(p) == {} && PagesOver(p) && p.editAttempted
    && (p.editSucceeded ==> PostMissing(p) == {})
  }

  lemma {:induction false} OldResults(k: Config, p: Provider, results: seq<ToolResult>)
    requires forall r | r in results :: r.id in p.seen
    ensures ObserveEach(k, p, results) == (p, false)
    decreases |results|
  {
    if results != [] {
      OldResults(k, p, results[..|results| - 1]);
    }
  }

  lemma StaysFinished(total: nat, k: Config, p: Provider, results: seq<ToolResult>)
    requires IsOrder(k.order) && Finished(p) && Answers(total, p, results)
    ensures Finished(Plan(k, p, results)) && Plan(k, p, results).trace == p.trace
  {
    OldResults(k, p, results);
    if p.editSucceeded {
      NothingToOrder(k);
    }
  }

  lemma NothingToOrder(k: Config)
    requires IsOrder(k.order)
    ensures k.order({}) == []
  {
    if k.order({}) != [] {
      HasMember(k.order({}));
    }
  }

  lemma HasMember(paths: seq<Path>)
    requires paths != []
    ensures exists path :: path in paths
  {
    assert paths[0] in paths;
  }

  lemma {:induction false} ReadCallsGrow(p: Provider, paths: seq<Path>, kind: Kind)
    ensures |ReadCalls(p, paths, kind).trace| == |p.trace| + |paths|
    decreases |paths|
  {
    if paths != [] {
      var k := if paths[0].Evidence? then LargeRead else kind;
      var q := if paths[0].Evidence? then p.(largeReadRequested := true) else p;
      ReadCallsGrow(NewCall(q, k, File(paths[0]), Some(paths[0])), paths[1..], k);
    }
  }

  /** A request is answered with calls, or the work is finished. */
  lemma ChoosesOrFinishes(total: nat, k: Config, p: Provider)
    requires IsOrder(k.order) && Ready(total, p)
    ensures |Choose(k, p).trace| > |p.trace| || (Finished(Choose(k, p)) && Choose(k, p).trace == p.trace)
  {
    hide IdsOk, GoodRoute, ReadsOk;
    if p.profileRef.Some? && !p.pagesFinished {
    } else if Missing(p) != {} {
      SomeBatch(k, p);
      ReadCallsGrow(p, Batch(k, p), Read);
    } else if !p.largeReadRequested {
      ReadCallsGrow(p, [Evidence], Read);
    } else if p.editSucceeded {
      ReadCallsGrow(p, k.order(PostMissing(p)), PostRead);
      if k.order(PostMissing(p)) == [] {
        assert PostMissing(p) == {};
      }
    }
  }

  lemma SomeBatch(k: Config, p: Provider)
    requires IsOrder(k.order) && Missing(p) != {}
    ensures Batch(k, p) != []
  {
    var path :| path in Missing(p);
    assert path in k.order(Missing(p));
  }

  lemma {:induction false} GrowsOrFinished(total: nat, k: Config, requests: seq<seq<ToolResult>>)
    requires IsOrder(k.order) && AllAnswered(total, k, FRESH, requests)
    ensures var p := Drive(k, FRESH, requests); Finished(p) || |p.trace| >= |requests|
    decreases |requests|
  {
    hide Planned, Answers, Ready, Choose, Heard, IsOrder, Finished;
    if requests != [] {
      var front, last := requests[..|requests| - 1], requests[|requests| - 1];
      var p := Drive(k, FRESH, front);
      GrowsOrFinished(total, k, front);
      if Finished(p) {
        StaysFinished(total, k, p, last);
      } else {
        RouteIsGood(total, k, front);
        HeardIsReady(total, k, p, last);
        HeardTrace(k, p, last);
        ChoosesOrFinishes(total, k, Heard(k, p, last));
      }
    }
  }

  lemma {:induction false} EachTrace(k: Config, p: Provider, results: seq<ToolResult>)
    ensures ObserveEach(k, p, results).0.trace == p.trace && ObserveEach(k, p, results).0.editAttempted == p.editAttempted
    decreases |results|
  {
    hide ObserveOne;
    if results != [] {
      var front := results[..|results| - 1];
      EachTrace(k, p, front);
      OneTrace(k, ObserveEach(k, p, front), results[|results| - 1]);
    }
  }

  lemma OneTrace(k: Config, a: (Provider, bool), r: ToolResult)
    ensures ObserveOne(k, a, r).0.trace == a.0.trace && ObserveOne(k, a, r).0.editAttempted == a.0.editAttempted
  {
    hide ReadResult, PageResult;
    if r.id !in a.0.seen && r.id in a.0.pending {
      var t := a.0.(seen := a.0.seen + {r.id}, pending := a.0.pending - {r.id});
      var (kind, path) := a.0.pending[r.id];
      if kind.Page? && r.page.Some? {
        PageTrace(t, a.1, r.page.value);
      } else if path.Some? {
        ReadResultIds(k, t, kind, path.value, r);
      }
    }
  }

  lemma PageTrace(p: Provider, observed: bool, page: PageInfo)
    ensures var q := PageResult(p, observed, page).0; q.trace == p.trace && q.editAttempted == p.editAttempted
  {
  }

  lemma HeardTrace(k: Config, p: Provider, results: seq<ToolResult>)
    ensures Heard(k, p, results).trace == p.trace && Heard(k, p, results).editAttempted == p.editAttempted
  {
    EachTrace(k, p, results);
  }

  /** After as many requests as a route has calls at most, and one more, the work is finished:
      no request is answered with a call any more. */
  lemma RouteStops(total: nat, k: Config, requests: seq<seq<ToolResult>>, more: seq<ToolResult>)
    requires IsOrder(k.order) && AllAnswered(total, k, FRESH, requests) && |requests| >= total + 10
    requires Answers(total, Drive(k, FRESH, requests), more)
    ensures var p := Drive(k, FRESH, requests); Plan(k, p, more).trace == p.trace && Finished(Plan(k, p, more))
  {
    hide Answers, Finished, Plan, IsOrder, GoodRoute;
    GrowsOrFinished(total, k, requests);
    RouteIsGood(total, k, requests);
    RouteIsShort(total, Drive(k, FRESH, requests).trace);
    StaysFinished(total, k, Drive(k, FRESH, requests), more);
  }

  // ----- whatever the results are -----

  function Edits(trace: seq<Call>): nat {
    if trace == [] then 0 else Edits(trace[..|trace| - 1]) + if trace[|trace| - 1].kind.Edit? then 1 else 0
  }

  lemma EditsNext(trace: seq<Call>, c: Call)
    ensures Edits(trace + [c]) == Edits(trace) + if c.kind.Edit? then 1 else 0
  {
    assert (trace + [c])[..|trace|] == trace;
  }

  lemma {:induction false} ReadsAreNoEdits(p: Provider, paths: seq<Path>, kind: Kind)
    requires !kind.Edit?
    ensures var q := ReadCalls(p, paths, kind); Edits(q.trace) == Edits(p.trace) && q.editAttempted == p.editAttempted
    decreases |paths|
  {
    if paths != [] {
      var k := if paths[0].Evidence? then LargeRead else kind;
      var q := if paths[0].Evidence? then p.(largeReadRequested := true) else p;
      EditsNext(q.trace, Call(q.callIndex + 1, k, File(paths[0])));
      ReadsAreNoEdits(NewCall(q, k, File(paths[0]), Some(paths[0])), paths[1..], k);
    }
  }

  lemma ChooseEdits(k: Config, p: Provider)
    ensures var q := Choose(k, p);
            && (p.editAttempted ==> q.editAttempted && Edits(q.trace) == Edits(p.trace))
            && (!p.editAttempted ==> Edits(q.trace) == Edits(p.trace) || (q.editAttempted && Edits(q.trace) == Edits(p.trace) + 1))
  {
    if p.profileRef.Some? && !p.pagesFinished {
      EditsNext(p.trace, Call(p.callIndex + 1, Page, Slice(p.profileRef.value, p.nextOffset, PageLimit(k.seed + p.pageCalls))));
    } else if Missing(p) != {} {
      ReadsAreNoEdits(p, Batch(k, p), Read);
    } else if !p.largeReadRequested {
      ReadsAreNoEdits(p, [Evidence], Read);
    } else if p.editSucceeded {
      ReadsAreNoEdits(p, k.order(PostMissing(p)), PostRead);
    } else if !p.editAttempted {
      var q := TryEdit(k, p);
      if q.trace != p.trace {
        EditsNext(p.trace, q.trace[|p.trace|]);
      }
    }
  }

  predicate EditsOk(p: Provider) {
    Edits(p.trace) <= if p.editAttempted then 1 else 0
  }

  lemma PlanEdits(k: Config, p: Provider, results: seq<ToolResult>)
    requires EditsOk(p)
    ensures EditsOk(Plan(k, p, results))
  {
    hide Choose, Heard;
    HeardTrace(k, p, results);
    ChooseEdits(k, Heard(k, p, results));
  }

  /** At most one edit is ever made: unanswered calls, foreign results and results in any order
      make no difference. */
  lemma {:induction false} OneEdit(k: Config, requests: seq<seq<ToolResult>>)
    ensures var p := Drive(k, FRESH, requests); Edits(p.trace) <= (if p.editAttempted then 1 else 0)
    decreases |requests|
  {
    hide Plan;
    if requests != [] {
      var front, last := requests[..|requests| - 1], requests[|requests| - 1];
      OneEdit(k, front);
      PlanEdits(k, Drive(k, FRESH, front), last);
    }
  }
}
