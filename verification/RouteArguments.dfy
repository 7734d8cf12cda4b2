/** What the planner's calls ask for, in every run, whatever the results are: the edit is derived from
    the last successful reading of the implementation, and pages ask for the last long result. */
module RouteArguments {
  import opened Wrappers
  import opened ProfileModel
  import opened RouteCoverage
  import opened RouteReading
  import RouteSafety
  import RouteEvidence

  // ----- the results that count -----

  predicate IsReadOf(c: Call, path: Path) {
    RouteEvidence.IsReadKind(c.kind) && c.arguments == File(path)
  }

  predicate Success(r: ToolResult) {
    !r.isError
  }

  predicate KeptOutside(r: ToolResult) {
    r.external.Some?
  }

  predicate Sized(r: ToolResult) {
    r.external.Some? && r.external.value.size.Some?
  }

  /** The last of these results that is wanted, is the first under its id, and answers a read of
      `path` that was called before. */
  function Taken(p: Provider, results: seq<ToolResult>, path: Path, want: ToolResult -> bool): (t: Option<ToolResult>)
    ensures t.Some? ==> want(t.value)
  {
    if results == [] then None
    else
      var front, r := results[..|results| - 1], results[|results| - 1];
      if want(r) && r.id !in p.seen && Answer(front, r.id).None? && exists c | c in p.trace :: r.id == Id(c.kind, c.index) && IsReadOf(c, path)
      then Some(r) else Taken(p, front, path, want)
  }

  /** The last one of a whole run. */
  function LastTaken(k: Config, requests: seq<seq<ToolResult>>, path: Path, want: ToolResult -> bool): (t: Option<ToolResult>)
    ensures t.Some? ==> want(t.value)
  {
    if requests == [] then None
    else
      var front := requests[..|requests| - 1];
      var r := Taken(Drive(k, FRESH, front), requests[|requests| - 1], path, want);
      if r.Some? then r else LastTaken(k, front, path, want)
  }

  /** The edit replaces what was derived from the last successful reading of the implementation. */
  ghost predicate EditOk(k: Config, requests: seq<seq<ToolResult>>, c: Call) {
    && c.arguments.Replace?
    && LastTaken(k, requests, Implementation, Success).Some?
    && k.derive(k.decode(LastTaken(k, requests, Implementation, Success).value.content)) == Some((c.arguments.before, c.arguments.after))
  }

  /** 64, 60, 64 and 48 KiB, in turn from the seed on. */
  function LimitOf(seed: int, pages: nat): int {
    [65536, 61440, 65536, 49152][(seed + pages) % 4]
  }

  /** The page is of the last long result, and as long as its turn says. */
  ghost predicate PageCallOk(k: Config, requests: seq<seq<ToolResult>>, c: Call, pages: nat) {
    && c.arguments.Slice?
    && LastTaken(k, requests, Evidence, KeptOutside).Some?
    && c.arguments.ref == LastTaken(k, requests, Evidence, KeptOutside).value.external.value.ref
    && c.arguments.limit == LimitOf(k.seed, pages)
  }

  // ----- calls, pending and seen -----

  function PathOf(c: Call): Option<Path> {
    match c.kind
    case Page => None
    case Edit => Some(Implementation)
    case _ => if c.arguments.File? then Some(c.arguments.path) else None
  }

  predicate IsKnown(p: Provider, c: Call) {
    var id := Id(c.kind, c.index);
    && (id in p.seen || id in p.pending) && (id in p.pending ==> p.pending[id] == (c.kind, PathOf(c)))
    && (RouteEvidence.IsReadKind(c.kind) ==> c.arguments.File?)
  }

  /** Every call is pending, or has had a result. */
  predicate CallsKnown(p: Provider) {
    && (forall c | c in p.trace :: IsKnown(p, c))
    && (forall id | id in p.pending :: exists c | c in p.trace :: id == Id(c.kind, c.index))
  }

  lemma NewKnown(p: Provider, kind: Kind, arguments: Arguments, path: Option<Path>)
    requires CallsKnown(p) && Indexed(p) && path == PathOf(Call(p.callIndex + 1, kind, arguments))
    requires RouteEvidence.IsReadKind(kind) ==> arguments.File?
    ensures CallsKnown(NewCall(p, kind, arguments, path))
  {
    var q, n := NewCall(p, kind, arguments, path), Call(p.callIndex + 1, kind, arguments);
    assert n in q.trace;
    forall c | c in p.trace ensures IsKnown(q, c) {
      assert IsKnown(p, c);
    }
    forall id | id in q.pending ensures exists c | c in q.trace :: id == Id(c.kind, c.index) {
      if id != Id(kind, p.callIndex + 1) {
        var c :| c in p.trace && id == Id(c.kind, c.index);
        assert c in q.trace;
      }
    }
  }

  lemma SameKnown(p: Provider, q: Provider)
    requires CallsKnown(p) && q.trace == p.trace && q.seen == p.seen && q.pending == p.pending
    ensures CallsKnown(q)
  {
    assert forall c :: IsKnown(q, c) == IsKnown(p, c);
  }

  lemma {:induction false} ReadsKnown(p: Provider, paths: seq<Path>, kind: Kind)
    requires CallsKnown(p) && Indexed(p) && Slices(p.trace) && RouteEvidence.IsReadKind(kind)
    ensures CallsKnown(ReadCalls(p, paths, kind))
    decreases |paths|
  {
    hide CallsKnown, Indexed, Slices;
    if paths != [] {
      var k := if paths[0].Evidence? then LargeRead else kind;
      var q := if paths[0].Evidence? then p.(largeReadRequested := true) else p;
      SameKnown(p, q);
      SameIndexed(p, q);
      NewKnown(q, k, File(paths[0]), Some(paths[0]));
      CallAsks(q, k, File(paths[0]), Some(paths[0]));
      ReadsKnown(NewCall(q, k, File(paths[0]), Some(paths[0])), paths[1..], k);
    }
  }

  lemma ChosenKnown(k: Config, p: Provider)
    requires CallsKnown(p) && Indexed(p) && Slices(p.trace)
    ensures CallsKnown(Choose(k, p))
  {
    hide CallsKnown, Indexed, Slices;
    if PageOut(p) {
      var q := p.(pageCalls := p.pageCalls + 1, lastPageOffset := Some(p.nextOffset));
      SameKnown(p, q);
      SameIndexed(p, q);
      NewKnown(q, Page, Slice(p.profileRef.value, p.nextOffset, PageLimit(k.seed + p.pageCalls)), None);
    } else if Missing(p) != {} {
      ReadsKnown(p, Batch(k, p), Read);
    } else if !p.largeReadRequested {
      ReadsKnown(p, [Evidence], Read);
    } else if p.editSucceeded {
      ReadsKnown(p, k.order(PostMissing(p)), PostRead);
    } else if !p.editAttempted {
      var q := p.(editAttempted := true);
      SameKnown(p, q);
      SameIndexed(p, q);
      var edit := if Implementation in p.readContents then k.derive(p.readContents[Implementation]) else None;
      if edit.Some? {
        NewKnown(q, Edit, Replace(edit.value.0, edit.value.1), Some(Implementation));
      }
    }
  }

  // ----- hearing -----

  /** What is recorded of a file: the content of the last successful reading. */
  ghost predicate ContentIs(k: Config, before: map<Path, string>, after: map<Path, string>, path: Path, r: Option<ToolResult>) {
    if r.Some? then path in after && after[path] == k.decode(r.value.content)
    else (path in after <==> path in before) && (path in before ==> after[path] == before[path])
  }

  /** What is recorded of the results so far: contents, and the reference. */
  ghost predicate Recorded(k: Config, p: Provider, a: Provider, results: seq<ToolResult>) {
    && (forall path | path != Evidence :: ContentIs(k, p.readContents, a.readContents, path, Taken(p, results, path, Success)))
    && var r, z := Taken(p, results, Evidence, KeptOutside), Taken(p, results, Evidence, Sized);
       && a.profileRef == (if r.Some? then Some(r.value.external.value.ref) else p.profileRef)
       && a.totalBytes == if z.Some? then z.value.external.value.size else p.totalBytes
  }

  /** Which calls are still pending after some results. */
  ghost predicate Left(p: Provider, a: Provider, results: seq<ToolResult>) {
    && a.trace == p.trace && a.callIndex == p.callIndex && a.pageCalls == p.pageCalls
    && (forall id :: id in a.seen <==> id in p.seen || Answer(results, id).Some?)
    && (forall id | id in a.pending :: id in p.pending && a.pending[id] == p.pending[id])
    && (forall id | id in p.pending :: id in a.pending || id in a.seen)
  }

  predicate ReadPending(a: Provider, id: CallId, path: Path) {
    id in a.pending && RouteEvidence.IsReadKind(a.pending[id].0) && a.pending[id].1 == Some(path)
  }

  predicate OfRead(p: Provider, r: ToolResult) {
    r.id !in p.seen && r.id in p.pending && RouteEvidence.IsReadKind(p.pending[r.id].0) && p.pending[r.id].1.Some?
  }

  /** What one result records. */
  lemma OneRecords(k: Config, a: (Provider, bool), r: ToolResult)
    ensures var b := ObserveOne(k, a, r).0;
            if OfRead(a.0, r) then
              var path := a.0.pending[r.id].1.value;
              && b.readContents == (if !r.isError && path != Evidence then a.0.readContents[path := k.decode(r.content)] else a.0.readContents)
              && b.profileRef == (if path == Evidence && r.external.Some? then Some(r.external.value.ref) else a.0.profileRef)
              && b.totalBytes == (if path == Evidence && Sized(r) then r.external.value.size else a.0.totalBytes)
            else b.readContents == a.0.readContents && b.profileRef == a.0.profileRef && b.totalBytes == a.0.totalBytes
  {
    if OfRead(a.0, r) {
      var t := a.0.(seen := a.0.seen + {r.id}, pending := a.0.pending - {r.id});
      ReadRecords(k, t, a.0.pending[r.id].0, a.0.pending[r.id].1.value, r);
      hide ReadResult, PageResult;
    } else {
      OthersRecordNothing(k, a, r);
      hide ObserveOne;
    }
  }

  lemma OthersRecordNothing(k: Config, a: (Provider, bool), r: ToolResult)
    requires !OfRead(a.0, r)
    ensures var b := ObserveOne(k, a, r).0;
            b.readContents == a.0.readContents && b.profileRef == a.0.profileRef && b.totalBytes == a.0.totalBytes
  {
    hide ReadResult;
  }

  lemma ReadRecords(k: Config, p: Provider, kind: Kind, path: Path, r: ToolResult)
    ensures var q := ReadResult(k, p, kind, path, r);
            && q.readContents == (if !r.isError && path != Evidence then p.readContents[path := k.decode(r.content)] else p.readContents)
            && q.profileRef == (if path == Evidence && r.external.Some? then Some(r.external.value.ref) else p.profileRef)
            && q.totalBytes == (if path == Evidence && Sized(r) then r.external.value.size else p.totalBytes)
  {
  }

  lemma OneLeft(k: Config, p: Provider, a: (Provider, bool), results: seq<ToolResult>, r: ToolResult)
    requires Left(p, a.0, results)
    ensures Left(p, ObserveOne(k, a, r).0, results + [r])
  {
    hide ObserveOne, Answer;
    RouteSafety.OneTrace(k, a, r);
    OneIndex(k, a, r);
    OnePending(k, a, r);
    forall id ensures Answer(results + [r], id) == if Answer(results, id).None? && r.id == id then Some(r) else Answer(results, id) {
      AnswerNext(results, r, id);
    }
  }

  lemma OnePending(k: Config, a: (Provider, bool), r: ToolResult)
    ensures var b := ObserveOne(k, a, r).0;
            b.pending == (if r.id in a.0.seen then a.0.pending else a.0.pending - {r.id}) && b.pageCalls == a.0.pageCalls
  {
    hide ReadResult, PageResult;
    if r.id !in a.0.seen && r.id in a.0.pending {
      var t := a.0.(seen := a.0.seen + {r.id}, pending := a.0.pending - {r.id});
      var (kind, path) := a.0.pending[r.id];
      if path.Some? {
        RouteSafety.ReadResultIds(k, t, kind, path.value, r);
      }
      if r.page.Some? {
        PageIndex(t, a.1, r.page.value);
      }
    }
  }

  /** A first result is one of a read of `path` exactly if such a read is pending. */
  lemma PendingIsCalled(p: Provider, a: Provider, results: seq<ToolResult>, id: CallId, path: Path)
    requires CallsKnown(p) && Left(p, a, results) && id !in a.seen
    ensures ReadPending(a, id, path) <==> exists c | c in p.trace :: id == Id(c.kind, c.index) && IsReadOf(c, path)
  {
    hide Answer;
    if ReadPending(a, id, path) {
      var c :| c in p.trace && id == Id(c.kind, c.index);
      assert IsKnown(p, c);
      assert IsReadOf(c, path);
    }
    forall c | c in p.trace && id == Id(c.kind, c.index) && IsReadOf(c, path) ensures ReadPending(a, id, path) {
      assert IsKnown(p, c);
    }
  }

  lemma TakenNext(p: Provider, a: Provider, results: seq<ToolResult>, r: ToolResult, path: Path, want: ToolResult -> bool)
    requires CallsKnown(p) && Left(p, a, results)
    ensures Taken(p, results + [r], path, want) ==
            if want(r) && r.id !in a.seen && ReadPending(a, r.id, path) then Some(r) else Taken(p, results, path, want)
  {
    assert (results + [r])[..|results|] == results;
    if r.id !in a.seen {
      PendingIsCalled(p, a, results, r.id, path);
    }
    hide CallsKnown, Answer, ReadPending, IsReadOf;
  }

  lemma OneRecorded(k: Config, p: Provider, a: (Provider, bool), results: seq<ToolResult>, r: ToolResult)
    requires CallsKnown(p) && Left(p, a.0, results) && Recorded(k, p, a.0, results)
    ensures Recorded(k, p, ObserveOne(k, a, r).0, results + [r])
  {
    OneRecords(k, a, r);
    hide ObserveOne, Taken;
    forall path | path != Evidence
      ensures ContentIs(k, p.readContents, ObserveOne(k, a, r).0.readContents, path, Taken(p, results + [r], path, Success))
    {
      TakenNext(p, a.0, results, r, path, Success);
    }
    TakenNext(p, a.0, results, r, Evidence, KeptOutside);
    TakenNext(p, a.0, results, r, Evidence, Sized);
    hide CallsKnown, Left, ContentIs;
  }

  lemma {:induction false} EachRecorded(k: Config, p: Provider, results: seq<ToolResult>)
    requires CallsKnown(p)
    ensures var a := ObserveEach(k, p, results).0; Left(p, a, results) && Recorded(k, p, a, results)
    decreases |results|
  {
    hide CallsKnown, Left, Recorded, ObserveOne;
    if results == [] {
      NoneRecorded(k, p);
    } else {
      var front, r := results[..|results| - 1], results[|results| - 1];
      assert results == front + [r];
      EachRecorded(k, p, front);
      OneLeft(k, p, ObserveEach(k, p, front), front, r);
      OneRecorded(k, p, ObserveEach(k, p, front), front, r);
    }
  }

  lemma NoneRecorded(k: Config, p: Provider)
    ensures Left(p, p, []) && Recorded(k, p, p, [])
  {
  }

  // ----- every run -----

  /** Contents and reference are those of the last results that count. */
  ghost predicate UpToDate(k: Config, requests: seq<seq<ToolResult>>) {
    var p := Drive(k, FRESH, requests);
    && (forall path | path != Evidence :: ContentIs(k, map[], p.readContents, path, LastTaken(k, requests, path, Success)))
    && var r, z := LastTaken(k, requests, Evidence, KeptOutside), LastTaken(k, requests, Evidence, Sized);
       && p.profileRef == (if r.Some? then Some(r.value.external.value.ref) else None)
       && p.totalBytes == if z.Some? then z.value.external.value.size else None
  }

  /** One call of the answer to the last of these requests. */
  ghost predicate CallOk(k: Config, requests: seq<seq<ToolResult>>, c: Call, pages: nat) {
    (c.kind.Edit? ==> EditOk(k, requests, c)) && (c.kind.Page? ==> PageCallOk(k, requests, c, pages))
  }

  lemma HeardKnown(k: Config, p: Provider, results: seq<ToolResult>)
    requires CallsKnown(p) && Indexed(p) && Slices(p.trace)
    ensures var h := Heard(k, p, results);
            && CallsKnown(h) && Indexed(h) && Slices(h.trace) && h.trace == p.trace && h.callIndex == p.callIndex
            && h.pageCalls == p.pageCalls && Recorded(k, p, h, results)
  {
    EachRecorded(k, p, results);
    var a, h := ObserveEach(k, p, results).0, Heard(k, p, results);
    hide ObserveEach, Answer, Recorded;
    LeftKnown(p, a, results);
    SameKnown(a, h);
    SameRecorded(k, p, a, h, results);
    SameIndexed(p, h);
  }

  lemma LeftKnown(p: Provider, a: Provider, results: seq<ToolResult>)
    requires CallsKnown(p) && Left(p, a, results)
    ensures CallsKnown(a)
  {
    hide Answer;
    forall c | c in a.trace ensures IsKnown(a, c) {
      assert IsKnown(p, c);
    }
  }

  lemma SameRecorded(k: Config, p: Provider, a: Provider, h: Provider, results: seq<ToolResult>)
    requires Recorded(k, p, a, results) && h.readContents == a.readContents && h.profileRef == a.profileRef && h.totalBytes == a.totalBytes
    ensures Recorded(k, p, h, results)
  {
  }

  /** A call of a prefix of the trace. */
  lemma IndexedAt(q: Provider, p: Provider, c: Call)
    requires Indexed(q) && Indexed(p) && |p.trace| <= |q.trace| && q.trace[..|p.trace|] == p.trace
    requires c in q.trace && c.index == p.callIndex
    ensures p.trace != [] && c == p.trace[|p.trace| - 1]
  {
    assert c == q.trace[c.index - 1];
    assert q.trace[..|p.trace|][c.index - 1] == c;
  }

  lemma {:induction false} ReadsKeep(p: Provider, paths: seq<Path>, kind: Kind)
    requires RouteEvidence.IsReadKind(kind) && Indexed(p) && Slices(p.trace)
    ensures var q := ReadCalls(p, paths, kind);
            && q.callIndex >= p.callIndex && q.pageCalls == p.pageCalls
            && q.readContents == p.readContents && q.profileRef == p.profileRef && q.totalBytes == p.totalBytes
            && forall c | c in q.trace && c.index > p.callIndex :: RouteEvidence.IsReadKind(c.kind)
    decreases |paths|
  {
    OldCalls(p);
    if paths != [] {
      var k := if paths[0].Evidence? then LargeRead else kind;
      var q := if paths[0].Evidence? then p.(largeReadRequested := true) else p;
      var next := NewCall(q, k, File(paths[0]), Some(paths[0]));
      var end := ReadCalls(next, paths[1..], k);
      SameIndexed(p, q);
      CallAsks(q, k, File(paths[0]), Some(paths[0]));
      ReadsKeep(next, paths[1..], k);
      ReadsAsk(next, paths[1..], k);
      ReadsGrow(next, paths[1..], k);
      hide Slices, Offsets;
      forall c | c in end.trace && c.index == next.callIndex ensures c.kind == k {
        IndexedAt(end, next, c);
      }
      hide Indexed, ReadCalls;
    }
  }

  /** The new calls, from what is recorded. */
  ghost predicate NewCallOk(k: Config, h: Provider, c: Call) {
    && (c.kind.Edit? ==>
          && c.arguments.Replace? && Implementation in h.readContents
          && k.derive(h.readContents[Implementation]) == Some((c.arguments.before, c.arguments.after)))
    && (c.kind.Page? ==>
          c.arguments.Slice? && h.profileRef == Some(c.arguments.ref) && c.arguments.limit == LimitOf(k.seed, h.pageCalls))
  }

  lemma OldCalls(p: Provider)
    requires Indexed(p)
    ensures forall c | c in p.trace :: c.index <= p.callIndex
  {
  }

  lemma ChosenCalls(k: Config, h: Provider)
    requires Indexed(h) && Slices(h.trace)
    ensures var q := Choose(k, h);
            && (forall c | c in q.trace && c.index > h.callIndex :: NewCallOk(k, h, c))
            && q.readContents == h.readContents && q.profileRef == h.profileRef && q.totalBytes == h.totalBytes
            && q.pageCalls == h.pageCalls + (if PageOut(h) then 1 else 0)
  {
    OldCalls(h);
    hide Indexed, Slices;
    if PageOut(h) {
    } else if Missing(h) != {} {
      ReadsKeep(h, Batch(k, h), Read);
    } else if !h.largeReadRequested {
      ReadsKeep(h, [Evidence], Read);
    } else if h.editSucceeded {
      ReadsKeep(h, k.order(PostMissing(h)), PostRead);
    }
  }

  ghost predicate RunKnown(k: Config, requests: seq<seq<ToolResult>>) {
    var p := Drive(k, FRESH, requests);
    && CallsKnown(p) && Indexed(p) && Slices(p.trace) && UpToDate(k, requests) && p.pageCalls == |Offsets(p.trace)|
  }

  lemma HeardUpToDate(k: Config, requests: seq<seq<ToolResult>>, h: Provider)
    requires requests != [] && UpToDate(k, requests[..|requests| - 1])
    requires Recorded(k, Drive(k, FRESH, requests[..|requests| - 1]), h, requests[|requests| - 1])
    ensures forall path | path != Evidence :: ContentIs(k, map[], h.readContents, path, LastTaken(k, requests, path, Success))
    ensures var r, z := LastTaken(k, requests, Evidence, KeptOutside), LastTaken(k, requests, Evidence, Sized);
            && h.profileRef == (if r.Some? then Some(r.value.external.value.ref) else None)
            && h.totalBytes == if z.Some? then z.value.external.value.size else None
  {
    hide Drive, Taken;
  }

  /** The calls of the last answer ask for what the results say. */
  lemma LastCallsOk(k: Config, requests: seq<seq<ToolResult>>)
    requires requests != [] && RunKnown(k, requests[..|requests| - 1])
    ensures RunKnown(k, requests)
    ensures var p := Drive(k, FRESH, requests[..|requests| - 1]);
            forall c | c in Drive(k, FRESH, requests).trace && c.index > p.callIndex :: CallOk(k, requests, c, |Offsets(p.trace)|)
  {
    var p, last := Drive(k, FRESH, requests[..|requests| - 1]), requests[|requests| - 1];
    var h, q := Heard(k, p, last), Drive(k, FRESH, requests);
    assert q == Choose(k, h);
    HeardKnown(k, p, last);
    HeardUpToDate(k, requests, h);
    ChosenKnown(k, h);
    ChosenAsks(k, h);
    ChosenCalls(k, h);
    hide Drive, Heard, Choose, CallsKnown, Indexed, Slices, Recorded, LastTaken, LastIsOut, Offsets, LimitOf;
    forall c | c in q.trace && c.index > p.callIndex ensures CallOk(k, requests, c, |Offsets(p.trace)|) {
      assert NewCallOk(k, h, c);
      assert ContentIs(k, map[], h.readContents, Implementation, LastTaken(k, requests, Implementation, Success));
    }
  }

  lemma {:induction false} RunIsKnown(k: Config, requests: seq<seq<ToolResult>>)
    ensures RunKnown(k, requests)
    decreases |requests|
  {
    hide RunKnown, CallOk, Drive;
    if requests == [] {
      FreshKnown(k);
    } else {
      RunIsKnown(k, requests[..|requests| - 1]);
      LastCallsOk(k, requests);
    }
  }

  lemma FreshKnown(k: Config)
    ensures RunKnown(k, [])
  {
  }

  lemma {:induction false} ReadsGrow(p: Provider, paths: seq<Path>, kind: Kind)
    ensures var q := ReadCalls(p, paths, kind); |p.trace| <= |q.trace| && q.trace[..|p.trace|] == p.trace
    decreases |paths|
  {
    if paths != [] {
      var k := if paths[0].Evidence? then LargeRead else kind;
      var q := if paths[0].Evidence? then p.(largeReadRequested := true) else p;
      var next := NewCall(q, k, File(paths[0]), Some(paths[0]));
      ReadsGrow(next, paths[1..], k);
      assert next.trace[..|p.trace|] == p.trace;
      PrefixOfPrefix(p.trace, next.trace, ReadCalls(next, paths[1..], k).trace);
    }
  }

  lemma PrefixOfPrefix(a: seq<Call>, b: seq<Call>, c: seq<Call>)
    requires |a| <= |b| <= |c| && b[..|a|] == a && c[..|b|] == b
    ensures c[..|a|] == a
  {
    assert c[..|b|][..|a|] == c[..|a|];
  }

  lemma ChosenGrows(k: Config, p: Provider)
    ensures var q := Choose(k, p); |p.trace| <= |q.trace| && q.trace[..|p.trace|] == p.trace
  {
    if !PageOut(p) {
      if Missing(p) != {} {
        ReadsGrow(p, Batch(k, p), Read);
      } else if !p.largeReadRequested {
        ReadsGrow(p, [Evidence], Read);
      } else if p.editSucceeded {
        ReadsGrow(p, k.order(PostMissing(p)), PostRead);
      }
    }
  }

  /** A call that is not of the last answer was made before. */
  lemma OldCallIn(k: Config, requests: seq<seq<ToolResult>>, c: Call)
    requires requests != [] && RunKnown(k, requests) && RunKnown(k, requests[..|requests| - 1])
    requires c in Drive(k, FRESH, requests).trace && c.index <= Drive(k, FRESH, requests[..|requests| - 1]).callIndex
    ensures c in Drive(k, FRESH, requests[..|requests| - 1]).trace
  {
    var p, last := Drive(k, FRESH, requests[..|requests| - 1]), requests[|requests| - 1];
    var q := Drive(k, FRESH, requests);
    assert q == Choose(k, Heard(k, p, last));
    ChosenGrows(k, Heard(k, p, last));
    RouteSafety.HeardTrace(k, p, last);
    hide Choose, Heard, Drive, CallsKnown, Slices, UpToDate, Offsets;
    assert c == q.trace[c.index - 1];
    assert q.trace[..|p.trace|][c.index - 1] == c;
  }

  /** Whatever the results are. Each call was made in answer to some request; if it is an edit, its two
      texts are derived from the last successful reading of the implementation among the results
      given up to that request; if it is a page, it is of the last long result given up to there, and
      of the length whose turn it is. */
  lemma {:induction false} CallsAreDerived(k: Config, requests: seq<seq<ToolResult>>, c: Call)
    requires c in Drive(k, FRESH, requests).trace
    ensures exists i | 0 < i <= |requests| ::
              && c in Drive(k, FRESH, requests[..i]).trace && c.index > Drive(k, FRESH, requests[..i - 1]).callIndex
              && CallOk(k, requests[..i], c, |Offsets(Drive(k, FRESH, requests[..i - 1]).trace)|)
    decreases |requests|
  {
    hide CallOk, Offsets, Heard, Choose;
    var n := |requests|;
    var front := requests[..n - 1];
    RunIsKnown(k, front);
    if c.index > Drive(k, FRESH, front).callIndex {
      LastCallsOk(k, requests);
      assert requests[..n] == requests;
    } else {
      RunIsKnown(k, requests);
      OldCallIn(k, requests, c);
      CallsAreDerived(k, front, c);
      var i :| 0 < i <= |front| && c in Drive(k, FRESH, front[..i]).trace && c.index > Drive(k, FRESH, front[..i - 1]).callIndex
        && CallOk(k, front[..i], c, |Offsets(Drive(k, FRESH, front[..i - 1]).trace)|);
      assert front[..i] == requests[..i] && front[..i - 1] == requests[..i - 1];
    }
  }

  /** Whatever the results are, the size known is the last one that was reported with a long result. */
  lemma SizeIsReported(k: Config, requests: seq<seq<ToolResult>>)
    ensures var z := LastTaken(k, requests, Evidence, Sized);
            Drive(k, FRESH, requests).totalBytes == if z.Some? then z.value.external.value.size else None
  {
    RunIsKnown(k, requests);
    hide Drive, LastTaken, CallsKnown, Indexed, Slices;
  }

  // ----- where the next page is asked for -----

  /** A page is out, and no other one. If what is told of it moves on, the next page is asked for where it
      says; if nothing is told, one further by the length whose turn it is, but not beyond the size; and
      the pages are over when one says so or the size is reached. */
  lemma NextPageOffset(k: Config, p: Provider, results: seq<ToolResult>)
    requires PageOut(p) && PageOk(p) && OnePage(p)
    ensures var q, tale, beyond := Plan(k, p, results), Tale(p, results), p.nextOffset + LimitOf(k.seed, p.pageCalls);
            if tale.Some? && tale.value.nextOffset.Some? && tale.value.nextOffset.value > p.nextOffset then
              q.nextOffset == tale.value.nextOffset.value && q.pagesFinished == tale.value.eof
            else if tale.Some? && tale.value.eof then q.nextOffset == p.nextOffset && q.pagesFinished
            else if p.totalBytes.Some? && p.totalBytes.value <= beyond then q.nextOffset == p.totalBytes.value && q.pagesFinished
            else q.nextOffset == beyond && !q.pagesFinished
  {
    EachHears(k, p, results);
    SamePageCalls(k, p, results);
    var (a, observed) := ObserveEach(k, p, results);
    ChosenPages(k, Heard(k, p, results));
    hide ObserveEach, Choose, Tale, PageOk, OnePage, Removed, LimitOf;
    TurnIs(k, a.pageCalls);
  }

  lemma TurnIs(k: Config, pages: nat)
    ensures PageLimit(k.seed + pages) == LimitOf(k.seed, pages)
  {
  }

  lemma {:induction false} SamePageCalls(k: Config, p: Provider, results: seq<ToolResult>)
    ensures ObserveEach(k, p, results).0.pageCalls == p.pageCalls
    decreases |results|
  {
    hide ObserveOne;
    if results != [] {
      SamePageCalls(k, p, results[..|results| - 1]);
      OnePending(k, ObserveEach(k, p, results[..|results| - 1]), results[|results| - 1]);
    }
  }

  // ----- how many files a round reads -----

  lemma {:induction false} DistinctSize(paths: seq<Path>, all: set<Path>)
    requires (forall path | path in paths :: path in all) && (forall path | path in all :: path in paths)
    requires forall i, j | 0 <= i < j < |paths| :: paths[i] != paths[j]
    ensures |paths| == |all|
    decreases |paths|
  {
    if paths == [] {
      assert all == {};
    } else {
      var first, rest := paths[0], paths[1..];
      assert paths == [first] + rest;
      assert forall j | 0 <= j < |rest| :: rest[j] == paths[j + 1];
      DistinctSize(rest, all - {first});
    }
  }

  /** 2, 3, 1 and 4 files, in turn from the seed on. */
  function RoundOf(seed: int, answers: nat): nat {
    [2, 3, 1, 4][(seed + answers) % 4]
  }

  /** A round of reads asks for as many files as its turn says, or for all that are missing: each once,
      and none but missing ones. */
  lemma RoundsInTurn(k: Config, p: Provider, results: seq<ToolResult>)
    requires IsOrder(k.order)
    ensures var h, q := Heard(k, p, results), Plan(k, p, results);
            !PageOut(h) && Missing(h) != {} ==>
              && |q.trace| - |h.trace| == (if RoundOf(k.seed, p.requestIndex) < |Missing(h)| then RoundOf(k.seed, p.requestIndex) else |Missing(h)|)
              && q.trace[..|h.trace|] == h.trace
              && forall i | |h.trace| <= i < |q.trace| :: q.trace[i].kind == Read && exists path | path in Missing(h) :: q.trace[i].arguments == File(path)
  {
    var h := Heard(k, p, results);
    CountsAnswers(k, p, results);
    if !PageOut(h) && Missing(h) != {} {
      var all := k.order(Missing(h));
      DistinctSize(all, Missing(h));
      var paths := Batch(k, h);
      assert forall path | path in paths :: path in all;
      hide IsOrder, Missing;
      ReadsAre(h, paths, Read);
      ReadsGrow(h, paths, Read);
      var q := ReadCalls(h, paths, Read);
      forall i | |h.trace| <= i < |q.trace|
        ensures q.trace[i].kind == Read && exists path | path in Missing(h) :: q.trace[i].arguments == File(path)
      {
        assert paths[i - |h.trace|] in paths;
      }
    }
  }

  lemma CountsAnswers(k: Config, p: Provider, results: seq<ToolResult>)
    ensures Heard(k, p, results).requestIndex == p.requestIndex + 1
  {
    EachCounts(k, p, results);
  }

  lemma {:induction false} EachCounts(k: Config, p: Provider, results: seq<ToolResult>)
    ensures ObserveEach(k, p, results).0.requestIndex == p.requestIndex
    decreases |results|
  {
    hide ObserveOne;
    if results != [] {
      EachCounts(k, p, results[..|results| - 1]);
      OneCounts(k, ObserveEach(k, p, results[..|results| - 1]), results[|results| - 1]);
    }
  }

  lemma OneCounts(k: Config, a: (Provider, bool), r: ToolResult)
    ensures ObserveOne(k, a, r).0.requestIndex == a.0.requestIndex
  {
    hide ReadResult, PageResult;
    if r.id !in a.0.seen && r.id in a.0.pending {
      var t := a.0.(seen := a.0.seen + {r.id}, pending := a.0.pending - {r.id});
      if a.0.pending[r.id].1.Some? {
        RouteSafety.ReadResultIds(k, t, a.0.pending[r.id].0, a.0.pending[r.id].1.value, r);
      }
      if r.page.Some? {
        PageIndex(t, a.1, r.page.value);
      }
    }
  }

  lemma {:induction false} ReadsAre(p: Provider, paths: seq<Path>, kind: Kind)
    requires Evidence !in paths
    ensures var q := ReadCalls(p, paths, kind);
            && |q.trace| == |p.trace| + |paths|
            && forall i | |p.trace| <= i < |q.trace| :: q.trace[i].kind == kind && q.trace[i].arguments == File(paths[i - |p.trace|])
    decreases |paths|
  {
    if paths != [] {
      assert paths[0] in paths && forall path | path in paths[1..] :: path in paths;
      var next := NewCall(p, kind, File(paths[0]), Some(paths[0]));
      var q := ReadCalls(next, paths[1..], kind);
      ReadsAre(next, paths[1..], kind);
      ReadsGrow(next, paths[1..], kind);
      forall i | |p.trace| <= i < |q.trace| ensures q.trace[i].kind == kind && q.trace[i].arguments == File(paths[i - |p.trace|]) {
        if i == |p.trace| {
          assert q.trace[i] == q.trace[..|next.trace|][i];
        } else {
          assert paths[1..][i - |next.trace|] == paths[i - |p.trace|];
        }
      }
    }
  }
}
