/** A complete route may have read nothing: for every order, every derivable edit and every size of
    the long result there is a run, each call answered by the next request, that is reported
    complete though every page failed. */
module RouteUnread {
  import opened Wrappers
  import opened ProfileModel
  import opened RouteSafety
  import RouteCoverage
  import RouteReading

  /** Reads and the edit succeed, the long result is kept outside, a page is an error. */
  function Reply(size: nat, content: string, id: CallId): ToolResult {
    ToolResult(id, id.Id? && id.kind.Page?, content,
               if id.Id? && id.kind.LargeRead? then Some(External("result", Some(size))) else None, None)
  }

  predicate Replies(size: nat, content: string, p: Provider, results: seq<ToolResult>) {
    && (forall id | id in p.pending :: Reply(size, content, id) in results)
    && (forall r | r in results :: r.id in p.pending && r == Reply(size, content, r.id))
  }

  predicate AllReplied(size: nat, content: string, k: Config, requests: seq<seq<ToolResult>>) {
    requests == [] ||
    (AllReplied(size, content, k, requests[..|requests| - 1])
     && Replies(size, content, Drive(k, FRESH, requests[..|requests| - 1]), requests[|requests| - 1]))
  }

  predicate SomePending(p: Provider, kind: Kind) {
    exists id | id in p.pending :: p.pending[id].0 == kind
  }

  predicate ContentsOk(k: Config, content: string, p: Provider) {
    && p.readFailures == {}
    && (forall path | path in p.readPaths && path != Evidence :: path in p.readContents)
    && (forall path | path in p.readContents :: p.readContents[path] == k.decode(content))
  }

  predicate KindsOk(p: Provider) {
    && (forall id | id in p.pending :: id !in p.seen && id.Id? && id.kind == p.pending[id].0)
    && (forall id | id in p.pending && id.kind.LargeRead? :: p.pending[id].1 == Some(Evidence))
  }

  /** Nothing that was asked for has failed, but pages. */
  predicate NothingFailed(k: Config, content: string, p: Provider) {
    && ContentsOk(k, content, p) && KindsOk(p)
    && (p.largeReadRequested && p.profileRef.None? ==> SomePending(p, LargeRead))
    && (p.editAttempted && !p.editSucceeded ==> SomePending(p, Edit))
  }

  lemma ContentsStay(k: Config, content: string, p: Provider, q: Provider)
    requires ContentsOk(k, content, p)
    requires q.readFailures == p.readFailures && q.readPaths == p.readPaths && q.readContents == p.readContents
    ensures ContentsOk(k, content, q)
  {
  }

  lemma ReadReply(k: Config, content: string, p: Provider, kind: Kind, path: Path, r: ToolResult)
    requires ContentsOk(k, content, p) && !r.isError && r.content == content
    ensures var q := ReadResult(k, p, kind, path, r);
            && ContentsOk(k, content, q)
            && q == p.(readPaths := q.readPaths, readContents := q.readContents, postChangeReads := q.postChangeReads,
                       profileRef := q.profileRef, totalBytes := q.totalBytes, nextOffset := q.nextOffset)
            && (p.profileRef.Some? || (path.Evidence? && r.external.Some?) ==> q.profileRef.Some?)
  {
  }

  /** What a reply leaves as it is; it is heard for its own kind. */
  predicate After(p: Provider, q: Provider, id: CallId) {
    && q.seen == p.seen + {id} && q.pending == p.pending - {id}
    && q.largeReadRequested == p.largeReadRequested && q.editAttempted == p.editAttempted
    && (p.profileRef.Some? || (id in p.pending && id.Id? && id.kind.LargeRead?) ==> q.profileRef.Some?)
    && (p.editSucceeded || (id in p.pending && id.Id? && id.kind.Edit?) ==> q.editSucceeded)
  }

  lemma ReplyHeard(size: nat, content: string, k: Config, a: (Provider, bool), id: CallId)
    requires ContentsOk(k, content, a.0) && KindsOk(a.0) && id !in a.0.seen
    ensures var q := ObserveOne(k, a, Reply(size, content, id)).0; ContentsOk(k, content, q) && After(a.0, q, id)
  {
    hide ReadResult, ContentsOk;
    var p, r := a.0, Reply(size, content, id);
    var t := p.(seen := p.seen + {id}, pending := p.pending - {id});
    ContentsStay(k, content, p, t);
    if id in p.pending {
      var (kind, path) := p.pending[id];
      if kind.Page? {
      } else if kind.Edit? {
        ContentsStay(k, content, t, t.(editSucceeded := true));
      } else if path.Some? {
        ReadReply(k, content, t, kind, path.value, r);
      }
    }
  }

  lemma OneReply(size: nat, content: string, k: Config, a: (Provider, bool), id: CallId)
    requires NothingFailed(k, content, a.0)
    ensures NothingFailed(k, content, ObserveOne(k, a, Reply(size, content, id)).0)
  {
    var p, q := a.0, ObserveOne(k, a, Reply(size, content, id)).0;
    if id !in p.seen {
      ReplyHeard(size, content, k, a, id);
      hide ObserveOne, ContentsOk, Reply;
      forall kind | SomePending(p, kind) && !(id in p.pending && p.pending[id].0 == kind) ensures SomePending(q, kind) {
        var other :| other in p.pending && p.pending[other].0 == kind;
        assert other in q.pending && q.pending[other].0 == kind;
      }
    }
  }

  lemma {:induction false} EachReply(size: nat, content: string, k: Config, p: Provider, results: seq<ToolResult>)
    requires NothingFailed(k, content, p) && forall r | r in results :: r == Reply(size, content, r.id)
    ensures NothingFailed(k, content, ObserveEach(k, p, results).0)
    decreases |results|
  {
    hide NothingFailed, ObserveOne;
    if results != [] {
      EachReply(size, content, k, p, results[..|results| - 1]);
      OneReply(size, content, k, ObserveEach(k, p, results[..|results| - 1]), results[|results| - 1].id);
    }
  }

  // ----- the choice -----

  lemma CallStays(k: Config, content: string, p: Provider, q: Provider, kind: Kind, arguments: Arguments, path: Option<Path>)
    requires IdsOk(p) && ContentsOk(k, content, p) && KindsOk(p) && (kind.LargeRead? ==> path == Some(Evidence))
    requires q == NewCall(p, kind, arguments, path)
    ensures IdsOk(q) && ContentsOk(k, content, q) && KindsOk(q) && SomePending(q, kind)
    ensures forall other | SomePending(p, other) :: SomePending(q, other)
  {
    var id := Id(kind, p.callIndex + 1);
    assert id in q.pending && q.pending[id].0 == kind;
    forall other | SomePending(p, other) ensures SomePending(q, other) {
      var x :| x in p.pending && p.pending[x].0 == other;
      assert x in q.pending && q.pending[x].0 == other;
    }
  }

  lemma {:induction false} ReadsStay(k: Config, content: string, p: Provider, paths: seq<Path>, kind: Kind)
    requires IdsOk(p) && ContentsOk(k, content, p) && KindsOk(p) && Evidence !in paths && !kind.LargeRead?
    ensures var q := ReadCalls(p, paths, kind);
            && ContentsOk(k, content, q) && KindsOk(q) && q.largeReadRequested == p.largeReadRequested
            && q.profileRef == p.profileRef && q.editAttempted == p.editAttempted && q.editSucceeded == p.editSucceeded
            && forall other | SomePending(p, other) :: SomePending(q, other)
    decreases |paths|
  {
    hide IdsOk, ContentsOk, KindsOk, SomePending;
    if paths != [] {
      assert paths[0] in paths;
      var q := NewCall(p, kind, File(paths[0]), Some(paths[0]));
      CallStays(k, content, p, q, kind, File(paths[0]), Some(paths[0]));
      ReadsStay(k, content, q, paths[1..], kind);
    }
  }

  lemma ChosenStays(k: Config, content: string, size: nat, p: Provider)
    requires IsOrder(k.order) && k.derive(k.decode(content)).Some? && Ready(size, p) && NothingFailed(k, content, p)
    ensures NothingFailed(k, content, Choose(k, p))
  {
    if p.profileRef.Some? && !p.pagesFinished {
      var q := p.(pageCalls := p.pageCalls + 1, lastPageOffset := Some(p.nextOffset));
      CallStays(k, content, q, Choose(k, p), Page, Slice(p.profileRef.value, p.nextOffset, PageLimit(k.seed + p.pageCalls)), None);
    } else if Missing(p) != {} {
      assert forall path | path in Batch(k, p) :: path in k.order(Missing(p));
      ReadsStay(k, content, p, Batch(k, p), Read);
    } else if !p.largeReadRequested {
      assert [Evidence][1..] == [];
      CallStays(k, content, p.(largeReadRequested := true), Choose(k, p), LargeRead, File(Evidence), Some(Evidence));
    } else if p.editSucceeded {
      ReadsStay(k, content, p, k.order(PostMissing(p)), PostRead);
    } else if !p.editAttempted {
      assert Implementation !in Missing(p);
      var edit := k.derive(k.decode(content)).value;
      CallStays(k, content, p.(editAttempted := true), Choose(k, p), Edit, Replace(edit.0, edit.1), Some(Implementation));
    }
  }

  // ----- the run -----

  lemma ReplyAnswers(size: nat, content: string, p: Provider, results: seq<ToolResult>)
    requires Replies(size, content, p, results)
    ensures Answers(size, p, results)
  {
  }

  lemma {:induction false} RepliesExist(size: nat, content: string, ids: set<CallId>) returns (results: seq<ToolResult>)
    ensures forall id | id in ids :: Reply(size, content, id) in results
    ensures forall r | r in results :: r.id in ids && r == Reply(size, content, r.id)
    decreases |ids|
  {
    if ids == {} {
      results := [];
    } else {
      var id :| id in ids;
      var others := RepliesExist(size, content, ids - {id});
      results := others + [Reply(size, content, id)];
    }
  }

  lemma RoundStays(k: Config, content: string, size: nat, p: Provider, results: seq<ToolResult>)
    requires IsOrder(k.order) && k.derive(k.decode(content)).Some?
    requires Planned(size, p) && NothingFailed(k, content, p) && Replies(size, content, p, results)
    ensures NothingFailed(k, content, Plan(k, p, results))
  {
    ReplyAnswers(size, content, p, results);
    HeardIsReady(size, k, p, results);
    EachReply(size, content, k, p, results);
    hide Choose, Replies, Planned, ObserveEach, IsOrder, ContentsOk;
    ContentsStay(k, content, ObserveEach(k, p, results).0, Heard(k, p, results));
    assert Heard(k, p, results).pending == ObserveEach(k, p, results).0.pending;
    ChosenStays(k, content, size, Heard(k, p, results));
  }

  lemma {:induction false} UnreadRun(k: Config, content: string, size: nat, n: nat) returns (requests: seq<seq<ToolResult>>)
    requires IsOrder(k.order) && k.derive(k.decode(content)).Some?
    ensures |requests| == n && AllAnswered(size, k, FRESH, requests) && AllReplied(size, content, k, requests)
    ensures NothingFailed(k, content, Drive(k, FRESH, requests))
  {
    hide Plan, Planned, NothingFailed, IsOrder, Answers, Replies;
    if n == 0 {
      requests := [];
      NothingYet(k, content);
    } else {
      var front := UnreadRun(k, content, size, n - 1);
      var p := Drive(k, FRESH, front);
      var last := NextReplies(size, content, p);
      requests := front + [last];
      assert requests[..n - 1] == front;
      RouteIsGood(size, k, front);
      ReplyAnswers(size, content, p, last);
      RoundStays(k, content, size, p, last);
    }
  }

  lemma NextReplies(size: nat, content: string, p: Provider) returns (results: seq<ToolResult>)
    ensures Replies(size, content, p, results)
  {
    results := RepliesExist(size, content, p.pending.Keys);
  }

  lemma NothingYet(k: Config, content: string)
    ensures NothingFailed(k, content, FRESH)
  {
  }

  lemma {:induction false} NothingTold(k: Config, content: string, size: nat, requests: seq<seq<ToolResult>>, o: int, page: PageInfo)
    requires AllReplied(size, content, k, requests)
    ensures !RouteReading.Tells(k, requests, o, page)
    decreases |requests|
  {
    hide Drive, Replies, RouteCoverage.TaleOf;
    if requests != [] {
      var front, last := requests[..|requests| - 1], requests[|requests| - 1];
      NothingTold(k, content, size, front, o, page);
      forall c | c in Drive(k, FRESH, front).trace && RouteReading.IsPageAt(c, o)
        ensures RouteCoverage.TaleOf(Drive(k, FRESH, front), last, Id(Page, c.index)).None?
      {
        NoTale(size, content, Drive(k, FRESH, front), last, c.index);
      }
    }
  }

  lemma NoTale(size: nat, content: string, p: Provider, results: seq<ToolResult>, index: nat)
    requires Replies(size, content, p, results)
    ensures RouteCoverage.TaleOf(p, results, Id(Page, index)).None?
  {
    RouteReading.AnswerIsResult(results, Id(Page, index));
  }

  /** With every file read and edited as asked, every call answered by the next request, and every
      page an error: the route is reported complete, and no byte of the long result was read. */
  lemma CompleteUnread(k: Config, content: string, size: nat) returns (requests: seq<seq<ToolResult>>)
    requires IsOrder(k.order) && k.derive(k.decode(content)).Some?
    ensures AllAnswered(size, k, FRESH, requests) && RouteComplete(Drive(k, FRESH, requests))
    ensures forall i, r | 0 <= i < |requests| && r in requests[i] && r.id.Id? && r.id.kind.Page? :: r.isError
    ensures forall b :: !RouteReading.WasRead(k, requests, b)
  {
    requests := UnreadRun(k, content, size, size + 10);
    forall o, page ensures !RouteReading.Tells(k, requests, o, page) {
      NothingTold(k, content, size, requests, o, page);
    }
    PagesFail(size, content, k, requests);
    var p := Drive(k, FRESH, requests);
    Finishes(size, k, requests);
    hide *;
    FinishedIsComplete(k, content, p);
  }

  lemma Finishes(size: nat, k: Config, requests: seq<seq<ToolResult>>)
    requires IsOrder(k.order) && AllAnswered(size, k, FRESH, requests) && |requests| == size + 10
    ensures Finished(Drive(k, FRESH, requests))
  {
    hide Finished, GoodRoute, IsOrder, AllAnswered, Drive;
    GrowsOrFinished(size, k, requests);
    RouteIsGood(size, k, requests);
    RouteIsShort(size, Drive(k, FRESH, requests).trace);
  }

  lemma FinishedIsComplete(k: Config, content: string, p: Provider)
    requires Finished(p) && NothingFailed(k, content, p)
    ensures RouteComplete(p)
  {
    forall path | path in REQUIRED ensures path in p.readPaths {
      assert path !in Missing(p);
    }
    assert !SomePending(p, LargeRead) && !SomePending(p, Edit);
    forall path | path in REREAD ensures path in p.postChangeReads {
      assert path !in PostMissing(p);
    }
  }

  lemma {:induction false} PagesFail(size: nat, content: string, k: Config, requests: seq<seq<ToolResult>>)
    requires AllReplied(size, content, k, requests)
    ensures forall i, r | 0 <= i < |requests| && r in requests[i] && r.id.Id? && r.id.kind.Page? :: r.isError
    decreases |requests|
  {
    hide Drive;
    if requests != [] {
      PagesFail(size, content, k, requests[..|requests| - 1]);
    }
  }
}
