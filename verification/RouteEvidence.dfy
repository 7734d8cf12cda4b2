/** What a route that is reported complete has behind it, whatever results were given: reads, a
    long result, an edit and rereads that succeeded. The pages are the matter of RouteReading. */
module RouteEvidence {
  import opened Wrappers
  import opened ProfileModel

  /** All results of all requests. */
  function AllResults(requests: seq<seq<ToolResult>>): seq<ToolResult> {
    if requests == [] then [] else AllResults(requests[..|requests| - 1]) + requests[|requests| - 1]
  }

  /** `r` answers call `c` without an error. */
  predicate Succeeds(c: Call, r: ToolResult) {
    r.id == Id(c.kind, c.index) && !r.isError
  }

  predicate IsReadKind(kind: Kind) {
    kind.Read? || kind.LargeRead? || kind.PostRead?
  }

  predicate ReadDone(trace: seq<Call>, heard: seq<ToolResult>, path: Path) {
    exists c, r | c in trace && r in heard :: Succeeds(c, r) && IsReadKind(c.kind) && c.arguments == File(path)
  }

  predicate RereadDone(trace: seq<Call>, heard: seq<ToolResult>, path: Path) {
    exists c, r | c in trace && r in heard :: Succeeds(c, r) && c.kind.PostRead? && c.arguments == File(path)
  }

  predicate EditDone(trace: seq<Call>, heard: seq<ToolResult>) {
    exists c, r | c in trace && r in heard :: Succeeds(c, r) && c.kind.Edit?
  }

  /** The long result was kept outside the transcript, under a reference. */
  predicate KeptOutside(trace: seq<Call>, heard: seq<ToolResult>) {
    exists c, r | c in trace && r in heard ::
      r.id == Id(c.kind, c.index) && c.arguments == File(Evidence) && r.external.Some?
  }

  /** The call a pending id stands for. */
  predicate IsCallOf(c: Call, id: CallId, kind: Kind, path: Option<Path>) {
    id == Id(c.kind, c.index) && kind == c.kind && (IsReadKind(kind) ==> path.Some? && c.arguments == File(path.value))
  }

  predicate PendingOk(p: Provider) {
    forall id | id in p.pending :: exists c | c in p.trace :: IsCallOf(c, id, p.pending[id].0, p.pending[id].1)
  }

  /** There is one large read; until it is answered there is no reference, and no page. */
  predicate LargeOk(p: Provider) {
    && (forall id | id in p.pending && p.pending[id].1 == Some(Evidence) :: p.largeReadRequested && p.profileRef.None?)
    && (forall id, other | id in p.pending && other in p.pending && p.pending[id].1 == Some(Evidence)
          && p.pending[other].1 == Some(Evidence) :: id == other)
    && (forall id | id in p.pending && p.pending[id].0.Page? :: p.profileRef.Some?)
    && (p.pagesFinished ==> p.profileRef.Some?)
    && (p.profileRef.Some? ==> p.largeReadRequested)
  }

  predicate Backed(p: Provider, heard: seq<ToolResult>) {
    && (forall path | path in p.readPaths :: ReadDone(p.trace, heard, path))
    && (forall path | path in p.postChangeReads :: RereadDone(p.trace, heard, path))
    && (p.editSucceeded ==> EditDone(p.trace, heard))
    && (p.profileRef.Some? ==> KeptOutside(p.trace, heard))
  }

  predicate Inv(p: Provider, heard: seq<ToolResult>) {
    PendingOk(p) && LargeOk(p) && Backed(p, heard)
  }

  /** More calls and more results take nothing back. */
  lemma StaysBacked(p: Provider, heard: seq<ToolResult>, q: Provider, more: seq<ToolResult>)
    requires Backed(p, heard)
    requires q == p.(seen := q.seen, pending := q.pending, trace := q.trace, callIndex := q.callIndex,
                     largeReadRequested := q.largeReadRequested, pageCalls := q.pageCalls,
                     lastPageOffset := q.lastPageOffset, editAttempted := q.editAttempted, requestIndex := q.requestIndex)
    requires (forall c | c in p.trace :: c in q.trace) && (forall r | r in heard :: r in more)
    ensures Backed(q, more)
  {
    forall path | path in p.readPaths ensures ReadDone(q.trace, more, path) {
      var c, r :| c in p.trace && r in heard && Succeeds(c, r) && IsReadKind(c.kind) && c.arguments == File(path);
      assert c in q.trace && r in more;
    }
    forall path | path in p.postChangeReads ensures RereadDone(q.trace, more, path) {
      var c, r :| c in p.trace && r in heard && Succeeds(c, r) && c.kind.PostRead? && c.arguments == File(path);
      assert c in q.trace && r in more;
    }
    if p.editSucceeded {
      var c, r :| c in p.trace && r in heard && Succeeds(c, r) && c.kind.Edit?;
      assert c in q.trace && r in more;
    }
    if p.profileRef.Some? {
      var c, r :| c in p.trace && r in heard && r.id == Id(c.kind, c.index) && c.arguments == File(Evidence) && r.external.Some?;
      assert c in q.trace && r in more;
    }
  }

  // ----- hearing -----

  lemma FewerPending(p: Provider, q: Provider)
    requires PendingOk(p) && LargeOk(p)
    requires q == p.(seen := q.seen, pending := q.pending)
    requires forall id | id in q.pending :: id in p.pending && q.pending[id] == p.pending[id]
    ensures PendingOk(q) && LargeOk(q)
  {
    forall id | id in q.pending ensures exists c | c in q.trace :: IsCallOf(c, id, q.pending[id].0, q.pending[id].1) {
      var c :| c in p.trace && IsCallOf(c, id, p.pending[id].0, p.pending[id].1);
    }
  }

  /** A read is answered. */
  lemma ReadHeard(k: Config, t: Provider, heard: seq<ToolResult>, c: Call, path: Path, r: ToolResult)
    requires Inv(t, heard) && r in heard && c in t.trace && r.id == Id(c.kind, c.index) && IsReadKind(c.kind) && c.arguments == File(path)
    requires path.Evidence? ==> t.profileRef.None? && t.largeReadRequested
    requires path.Evidence? ==> forall id | id in t.pending :: t.pending[id].1 != Some(Evidence)
    ensures Inv(ReadResult(k, t, c.kind, path, r), heard)
  {
    var q := ReadResult(k, t, c.kind, path, r);
    ReadBacked(k, t, heard, c, path, r);
    hide Backed, ReadDone, RereadDone, KeptOutside, EditDone;
    forall id | id in q.pending ensures exists x | x in q.trace :: IsCallOf(x, id, q.pending[id].0, q.pending[id].1) {
      var x :| x in t.trace && IsCallOf(x, id, t.pending[id].0, t.pending[id].1);
    }
  }

  lemma ReadBacked(k: Config, t: Provider, heard: seq<ToolResult>, c: Call, path: Path, r: ToolResult)
    requires Backed(t, heard) && r in heard && c in t.trace && r.id == Id(c.kind, c.index) && IsReadKind(c.kind) && c.arguments == File(path)
    ensures var q := ReadResult(k, t, c.kind, path, r);
            Backed(q, heard) && q.pending == t.pending && q.trace == t.trace
  {
    hide Backed, NoteRead, NoteReference;
    NoteReadBacked(k, t, heard, c, path, r);
    NoteReferenceBacked(NoteRead(k, t, c.kind, path, r), heard, c, path, r);
  }

  lemma NoteReadBacked(k: Config, t: Provider, heard: seq<ToolResult>, c: Call, path: Path, r: ToolResult)
    requires Backed(t, heard) && r in heard && c in t.trace && r.id == Id(c.kind, c.index) && IsReadKind(c.kind) && c.arguments == File(path)
    ensures var q := NoteRead(k, t, c.kind, path, r);
            Backed(q, heard) && q.pending == t.pending && q.trace == t.trace
  {
    hide ReadDone, RereadDone, EditDone, KeptOutside;
    if !r.isError {
      DoneNow(t.trace, heard, c, path, r);
    }
  }

  lemma DoneNow(trace: seq<Call>, heard: seq<ToolResult>, c: Call, path: Path, r: ToolResult)
    requires r in heard && c in trace && r.id == Id(c.kind, c.index) && IsReadKind(c.kind) && c.arguments == File(path)
    ensures !r.isError ==> ReadDone(trace, heard, path) && (c.kind.PostRead? ==> RereadDone(trace, heard, path))
    ensures path.Evidence? && r.external.Some? ==> KeptOutside(trace, heard)
  {
    if !r.isError {
      assert Succeeds(c, r);
    }
  }

  lemma NoteReferenceBacked(t: Provider, heard: seq<ToolResult>, c: Call, path: Path, r: ToolResult)
    requires Backed(t, heard) && r in heard && c in t.trace && r.id == Id(c.kind, c.index) && IsReadKind(c.kind) && c.arguments == File(path)
    ensures var q := NoteReference(t, path, r); Backed(q, heard) && q.pending == t.pending && q.trace == t.trace
  {
    hide ReadDone, RereadDone, EditDone, KeptOutside;
    DoneNow(t.trace, heard, c, path, r);
  }

  lemma PageHeard(t: Provider, observed: bool, heard: seq<ToolResult>, c: Call, r: ToolResult)
    requires Inv(t, heard) && r in heard && c in t.trace && Succeeds(c, r) && c.kind.Page? && r.page.Some? && t.profileRef.Some?
    ensures Inv(PageResult(t, observed, r.page.value).0, heard)
  {
    var q := PageResult(t, observed, r.page.value).0;
    forall id | id in q.pending ensures exists x | x in q.trace :: IsCallOf(x, id, q.pending[id].0, q.pending[id].1) {
      var x :| x in t.trace && IsCallOf(x, id, t.pending[id].0, t.pending[id].1);
    }
  }

  lemma EditHeard(t: Provider, heard: seq<ToolResult>, c: Call, r: ToolResult)
    requires Inv(t, heard) && r in heard && c in t.trace && r.id == Id(c.kind, c.index) && c.kind.Edit?
    ensures Inv(t.(editSucceeded := !r.isError), heard)
  {
    var q := t.(editSucceeded := !r.isError);
    forall id | id in q.pending ensures exists x | x in q.trace :: IsCallOf(x, id, q.pending[id].0, q.pending[id].1) {
      var x :| x in t.trace && IsCallOf(x, id, t.pending[id].0, t.pending[id].1);
    }
    if !r.isError {
      assert Succeeds(c, r);
    }
  }

  lemma OneHeard(k: Config, a: (Provider, bool), heard: seq<ToolResult>, r: ToolResult)
    requires Inv(a.0, heard)
    ensures Inv(ObserveOne(k, a, r).0, heard + [r])
  {
    hide Backed, ReadResult, PageResult;
    var p, more := a.0, heard + [r];
    StaysBacked(p, heard, p, more);
    if r.id !in p.seen {
      var t := p.(seen := p.seen + {r.id}, pending := p.pending - {r.id});
      FewerPending(p, t);
      StaysBacked(p, heard, t, more);
      if r.id in p.pending {
        var (kind, path) := p.pending[r.id];
        var c :| c in p.trace && IsCallOf(c, r.id, kind, path);
        if IsReadKind(kind) {
          ReadHeard(k, t, more, c, path.value, r);
        } else if kind.Page? && !r.isError && r.page.Some? {
          PageHeard(t, a.1, more, c, r);
        } else if kind.Edit? {
          EditHeard(t, more, c, r);
        }
      }
    }
  }

  lemma {:induction false} EachHeard(k: Config, p: Provider, heard: seq<ToolResult>, results: seq<ToolResult>)
    requires Inv(p, heard)
    ensures Inv(ObserveEach(k, p, results).0, heard + results)
    decreases |results|
  {
    hide Inv, ObserveOne;
    if results == [] {
      assert heard + results == heard;
    } else {
      var front, r := results[..|results| - 1], results[|results| - 1];
      EachHeard(k, p, heard, front);
      OneHeard(k, ObserveEach(k, p, front), heard + front, r);
      assert (heard + front) + [r] == heard + results;
    }
  }

  lemma SkipHeard(k: Config, p: Provider, heard: seq<ToolResult>)
    requires Inv(p, heard) && p.profileRef.Some? && !p.pagesFinished
    ensures Inv(SkipPage(k, p), heard)
  {
    var q := SkipPage(k, p);
    forall id | id in q.pending ensures exists x | x in q.trace :: IsCallOf(x, id, q.pending[id].0, q.pending[id].1) {
      var x :| x in p.trace && IsCallOf(x, id, p.pending[id].0, p.pending[id].1);
    }
  }

  lemma RequestHeard(k: Config, p: Provider, heard: seq<ToolResult>, results: seq<ToolResult>)
    requires Inv(p, heard)
    ensures Inv(Heard(k, p, results), heard + results)
  {
    hide Inv, SkipPage;
    EachHeard(k, p, heard, results);
    var q := ObserveEach(k, p, results).0;
    if Observe(k, p, results) != q {
      SkipHeard(k, q, heard + results);
    }
    Counted(Observe(k, p, results), heard + results);
  }

  lemma Counted(p: Provider, heard: seq<ToolResult>)
    requires Inv(p, heard)
    ensures Inv(p.(requestIndex := p.requestIndex + 1), heard)
  {
    var q := p.(requestIndex := p.requestIndex + 1);
    assert forall id | id in p.pending :: exists c | c in q.trace :: IsCallOf(c, id, p.pending[id].0, p.pending[id].1);
  }

  // ----- choosing -----

  lemma CallMade(p: Provider, heard: seq<ToolResult>, kind: Kind, arguments: Arguments, path: Option<Path>)
    requires Inv(p, heard)
    requires IsReadKind(kind) ==> path.Some? && arguments == File(path.value)
    requires path == Some(Evidence) ==> p.largeReadRequested && p.profileRef.None? && forall id | id in p.pending :: p.pending[id].1 != path
    requires kind.Page? ==> p.profileRef.Some?
    ensures Inv(NewCall(p, kind, arguments, path), heard)
  {
    var q := NewCall(p, kind, arguments, path);
    var c := Call(p.callIndex + 1, kind, arguments);
    StaysBacked(p, heard, q, heard);
    assert c in q.trace;
    forall id | id in q.pending ensures exists x | x in q.trace :: IsCallOf(x, id, q.pending[id].0, q.pending[id].1) {
      if id == Id(kind, p.callIndex + 1) {
        assert IsCallOf(c, id, kind, path);
      } else {
        var x :| x in p.trace && IsCallOf(x, id, p.pending[id].0, p.pending[id].1);
        assert x in q.trace;
      }
    }
  }

  lemma {:induction false} ReadsMade(p: Provider, heard: seq<ToolResult>, paths: seq<Path>, kind: Kind)
    requires Inv(p, heard) && IsReadKind(kind) && Evidence !in paths
    ensures Inv(ReadCalls(p, paths, kind), heard)
    decreases |paths|
  {
    hide Inv;
    if paths != [] {
      assert paths[0] in paths;
      CallMade(p, heard, kind, File(paths[0]), Some(paths[0]));
      ReadsMade(NewCall(p, kind, File(paths[0]), Some(paths[0])), heard, paths[1..], kind);
    }
  }

  lemma FlagsSet(p: Provider, heard: seq<ToolResult>, q: Provider)
    requires Inv(p, heard)
    requires q == p.(largeReadRequested := q.largeReadRequested, pageCalls := q.pageCalls,
                     lastPageOffset := q.lastPageOffset, editAttempted := q.editAttempted)
    requires p.largeReadRequested ==> q.largeReadRequested
    ensures Inv(q, heard)
  {
    StaysBacked(p, heard, q, heard);
    assert forall id | id in p.pending :: exists c | c in q.trace :: IsCallOf(c, id, p.pending[id].0, p.pending[id].1);
  }

  lemma ChosenBacked(k: Config, p: Provider, heard: seq<ToolResult>)
    requires IsOrder(k.order) && Inv(p, heard)
    ensures Inv(Choose(k, p), heard)
  {
    hide PendingOk, Backed;
    if p.profileRef.Some? && !p.pagesFinished {
      var q := p.(pageCalls := p.pageCalls + 1, lastPageOffset := Some(p.nextOffset));
      FlagsSet(p, heard, q);
      CallMade(q, heard, Page, Slice(p.profileRef.value, p.nextOffset, PageLimit(k.seed + p.pageCalls)), None);
    } else if Missing(p) != {} {
      assert forall path | path in Batch(k, p) :: path in k.order(Missing(p));
      ReadsMade(p, heard, Batch(k, p), Read);
    } else if !p.largeReadRequested {
      var q := p.(largeReadRequested := true);
      FlagsSet(p, heard, q);
      assert [Evidence][1..] == [];
      CallMade(q, heard, LargeRead, File(Evidence), Some(Evidence));
    } else if p.editSucceeded {
      ReadsMade(p, heard, k.order(PostMissing(p)), PostRead);
    } else if !p.editAttempted {
      var q := p.(editAttempted := true);
      FlagsSet(p, heard, q);
      var edit := if Implementation in p.readContents then k.derive(p.readContents[Implementation]) else None;
      if edit.Some? {
        CallMade(q, heard, Edit, Replace(edit.value.0, edit.value.1), Some(Implementation));
      }
    }
  }

  // ----- every run -----

  lemma {:induction false} RunBacked(k: Config, requests: seq<seq<ToolResult>>)
    requires IsOrder(k.order)
    ensures Inv(Drive(k, FRESH, requests), AllResults(requests))
    decreases |requests|
  {
    hide Inv, Plan, IsOrder;
    if requests == [] {
      FreshBacked();
    } else {
      var front, last := requests[..|requests| - 1], requests[|requests| - 1];
      RunBacked(k, front);
      PlanBacked(k, Drive(k, FRESH, front), AllResults(front), last);
    }
  }

  lemma PlanBacked(k: Config, p: Provider, heard: seq<ToolResult>, results: seq<ToolResult>)
    requires IsOrder(k.order) && Inv(p, heard)
    ensures Inv(Plan(k, p, results), heard + results)
  {
    hide Inv, Choose, Heard, IsOrder;
    RequestHeard(k, p, heard, results);
    ChosenBacked(k, Heard(k, p, results), heard + results);
  }

  lemma FreshBacked()
    ensures Inv(FRESH, [])
  {
  }

  /** A route reported complete has had, among its calls and the results given: a successful
      read of every required file; a long result kept outside; a successful edit; and a
      successful read of both files after it. */
  lemma CompleteIsBacked(k: Config, requests: seq<seq<ToolResult>>)
    requires IsOrder(k.order) && RouteComplete(Drive(k, FRESH, requests))
    ensures var trace, heard := Drive(k, FRESH, requests).trace, AllResults(requests);
            && (forall path | path in REQUIRED :: ReadDone(trace, heard, path))
            && KeptOutside(trace, heard) && EditDone(trace, heard)
            && (forall path | path in REREAD :: RereadDone(trace, heard, path))
  {
    RunBacked(k, requests);
  }
}
