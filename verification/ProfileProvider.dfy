/** The code of ProfileWorkloadProvider: fields that every request updates in place. Each method is
    proved to be the step of ProfileModel, and each request to keep what holds over all runs. */
module ProfileProvider {
  import opened Wrappers
  import opened ProfileModel
  import RouteSafety
  import RouteEvidence

  class ProfileWorkloadProvider {
    const config: Config
    var requestIndex: nat
    var callIndex: nat
    var pendingCalls: map<CallId, (Kind, Option<Path>)>
    var seenToolResults: set<CallId>
    var readPaths: set<Path>
    var readFailures: set<Path>
    var readContents: map<Path, string>
    var largeReadRequested: bool
    var profileRef: Option<string>
    var profileTotalBytes: Option<int>
    var nextOffset: int
    var lastPageRequestOffset: Option<int>
    var pagesFinished: bool
    var toolResultReadCalls: nat
    var editAttempted: bool
    var editSucceeded: bool
    var postChangeReads: set<Path>
    var routeTrace: seq<Call>
    ghost var heard: seq<ToolResult>

    ghost function Abs(): Provider
      reads this
    {
      Provider(requestIndex, callIndex, pendingCalls, seenToolResults, readPaths, readFailures, readContents,
               largeReadRequested, profileRef, profileTotalBytes, nextOffset, lastPageRequestOffset, pagesFinished,
               toolResultReadCalls, editAttempted, editSucceeded, postChangeReads, routeTrace)
    }

    /** What is recorded as read, edited and kept outside has a call and a result behind it, and
        at most one edit was made. */
    ghost predicate Valid()
      reads this
    {
      IsOrder(config.order) && RouteEvidence.Inv(Abs(), heard) && RouteSafety.EditsOk(Abs())
    }

    constructor (config: Config)
      requires IsOrder(config.order)
      ensures Valid() && Abs() == FRESH && this.config == config && heard == []
    {
      this.config := config;
      requestIndex, callIndex, pendingCalls, seenToolResults := 0, 0, map[], {};
      readPaths, readFailures, readContents, largeReadRequested := {}, {}, map[], false;
      profileRef, profileTotalBytes, nextOffset, lastPageRequestOffset := None, None, 0, None;
      pagesFinished, toolResultReadCalls, editAttempted, editSucceeded := false, 0, false, false;
      postChangeReads, routeTrace, heard := {}, [], [];
    }

    method MakeCall(kind: Kind, arguments: Arguments, path: Option<Path>) returns (call: Call)
      modifies this`callIndex, this`pendingCalls, this`routeTrace
      ensures Abs() == NewCall(old(Abs()), kind, arguments, path)
      ensures routeTrace == old(routeTrace) + [call]
    {
      callIndex := callIndex + 1;
      pendingCalls := pendingCalls[Id(kind, callIndex) := (kind, path)];
      call := Call(callIndex, kind, arguments);
      routeTrace := routeTrace + [call];
    }

    method ObservePath(kind: Kind, path: Path)
      modifies this`readPaths, this`postChangeReads
      ensures Abs() == NotePath(old(Abs()), kind, path)
    {
      readPaths := readPaths + {path};
      if kind.PostRead? {
        postChangeReads := postChangeReads + {path};
      }
    }

    method ObserveContent(path: Path, r: ToolResult)
      modifies this`readContents
      ensures Abs() == NoteContent(config, old(Abs()), path, r)
    {
      if path != Evidence {
        readContents := readContents[path := config.decode(r.content)];
      }
    }

    method ObserveRead(kind: Kind, path: Path, r: ToolResult)
      modifies this`readFailures, this`readPaths, this`postChangeReads, this`readContents
      ensures Abs() == NoteRead(config, old(Abs()), kind, path, r)
    {
      hide NotePath, NoteContent;
      if r.isError {
        readFailures := readFailures + {path};
      } else {
        ObservePath(kind, path);
        ObserveContent(path, r);
      }
    }

    method ObserveReference(path: Path, r: ToolResult)
      modifies this`profileRef, this`profileTotalBytes, this`nextOffset
      ensures Abs() == NoteReference(old(Abs()), path, r)
    {
      if path == Evidence && r.external.Some? {
        profileRef := Some(r.external.value.ref);
        if r.external.value.size.Some? {
          profileTotalBytes := r.external.value.size;
        }
        nextOffset := 0;
      }
    }

    method ObservePage(page: PageInfo, observed: bool) returns (observedPage: bool)
      modifies this`nextOffset, this`pagesFinished
      ensures (Abs(), observedPage) == PageResult(old(Abs()), observed, page)
    {
      observedPage := observed;
      if page.nextOffset.Some? && page.nextOffset.value > nextOffset {
        nextOffset := page.nextOffset.value;
        observedPage := true;
      }
      if page.eof {
        pagesFinished := true;
      }
    }

    /** The loop body of the observation. */
    method ObserveResult(r: ToolResult, observed: bool) returns (observedPage: bool)
      modifies this
      ensures (Abs(), observedPage) == ObserveOne(config, (old(Abs()), observed), r)
    {
      hide NoteRead, NoteReference, PageResult;
      observedPage := observed;
      if r.id in seenToolResults {
        return;
      }
      seenToolResults := seenToolResults + {r.id};
      if r.id !in pendingCalls {
        pendingCalls := pendingCalls - {r.id};
        return;
      }
      var (kind, path) := pendingCalls[r.id];
      pendingCalls := pendingCalls - {r.id};
      if (kind.Read? || kind.PostRead? || kind.LargeRead?) && path.Some? {
        ObserveRead(kind, path.value, r);
        ObserveReference(path.value, r);
      } else if kind.Page? && !r.isError {
        if r.page.None? {
          return;
        }
        observedPage := ObservePage(r.page.value, observed);
      } else if kind.Edit? {
        editSucceeded := !r.isError;
      }
    }

    method ObserveToolResults(results: seq<ToolResult>)
      modifies this
      ensures Abs() == Observe(config, old(Abs()), results)
    {
      hide ObserveOne;
      var observedPage := false;
      for i := 0 to |results|
        invariant (Abs(), observedPage) == ObserveEach(config, old(Abs()), results[..i])
      {
        observedPage := ObserveResult(results[i], observedPage);
        assert results[..i + 1][..i] == results[..i];
      }
      assert results[..|results|] == results;
      if !observedPage && profileRef.Some? && !pagesFinished && lastPageRequestOffset.Some?
         && nextOffset == lastPageRequestOffset.value {
        var total := profileTotalBytes;
        var next := nextOffset + PageLimit(config.seed + toolResultReadCalls);
        if total.Some? && total.value < next {
          next := total.value;
        }
        nextOffset := next;
        if total.Some? && next >= total.value {
          pagesFinished := true;
        }
      }
    }

    method MakeReadCalls(paths: seq<Path>, postChange: bool) returns (calls: seq<Call>)
      modifies this
      ensures Abs() == ReadCalls(old(Abs()), paths, if postChange then PostRead else Read)
      ensures routeTrace == old(routeTrace) + calls
    {
      calls := [];
      var kind := if postChange then PostRead else Read;
      for i := 0 to |paths|
        invariant ReadCalls(Abs(), paths[i..], kind) == ReadCalls(old(Abs()), paths, if postChange then PostRead else Read)
        invariant routeTrace == old(routeTrace) + calls
      {
        assert paths[i..][1..] == paths[i + 1..];
        if paths[i] == Evidence {
          kind := LargeRead;
          largeReadRequested := true;
        }
        var call := MakeCall(kind, File(paths[i]), Some(paths[i]));
        calls := calls + [call];
      }
      assert paths[|paths|..] == [];
    }

    /** The rest of the plan, once the results are heard. */
    method ChooseCalls() returns (calls: seq<Call>)
      modifies this
      ensures Abs() == Choose(config, old(Abs()))
      ensures routeTrace == old(routeTrace) + calls
    {
      hide ReadCalls;
      if profileRef.Some? && !pagesFinished {
        calls := NextPageCall();
        return;
      }
      var wanted := set path | path in REQUIRED && path !in readPaths && path !in readFailures;
      if wanted != {} {
        var missing := config.order(wanted);
        var batchSize := BatchSize(config.seed + requestIndex - 1);
        calls := MakeReadCalls(if batchSize < |missing| then missing[..batchSize] else missing, false);
        return;
      }
      if !largeReadRequested {
        calls := MakeReadCalls([Evidence], false);
        return;
      }
      if editSucceeded {
        var postMissing := config.order(set path | path in REREAD && path !in postChangeReads && path !in readFailures);
        calls := MakeReadCalls(postMissing, true);
        return;
      }
      if editAttempted {
        return [];
      }
      calls := TryEditCall();
    }

    method NextPageCall() returns (calls: seq<Call>)
      requires profileRef.Some?
      modifies this
      ensures Abs() == NextPage(config, old(Abs()))
      ensures routeTrace == old(routeTrace) + calls
    {
      toolResultReadCalls := toolResultReadCalls + 1;
      lastPageRequestOffset := Some(nextOffset);
      var limit := PageLimit(config.seed + toolResultReadCalls - 1);
      var call := MakeCall(Page, Slice(profileRef.value, nextOffset, limit), None);
      calls := [call];
    }

    method TryEditCall() returns (calls: seq<Call>)
      modifies this
      ensures Abs() == TryEdit(config, old(Abs()))
      ensures routeTrace == old(routeTrace) + calls
    {
      var edit := if Implementation in readContents then config.derive(readContents[Implementation]) else None;
      editAttempted := true;
      if edit.None? {
        return [];
      }
      var call := MakeCall(Edit, Replace(edit.value.0, edit.value.1), Some(Implementation));
      calls := [call];
    }

    /** One request. A trace that was good stays good if every call was answered. */
    method PlanCalls(results: seq<ToolResult>) returns (calls: seq<Call>)
      requires Valid()
      modifies this
      ensures Valid() && heard == old(heard) + results
      ensures Abs() == Plan(config, old(Abs()), results)
      ensures routeTrace == old(routeTrace) + calls
      ensures forall total: nat ::
                RouteSafety.Planned(total, old(Abs())) && RouteSafety.Answers(total, old(Abs()), results) ==>
                RouteSafety.Planned(total, Abs())
    {
      hide RouteEvidence.Inv, RouteSafety.EditsOk, RouteSafety.Planned, RouteSafety.Answers, IsOrder, Plan, Heard;
      ghost var before, told := Abs(), heard + results;
      PlanKeeps(config, before, heard, results);
      RouteSafety.HeardTrace(config, before, results);
      calls := AnswerRequest(results);
      heard := told;
    }

    method AnswerRequest(results: seq<ToolResult>) returns (calls: seq<Call>)
      modifies this
      ensures Abs() == Plan(config, old(Abs()), results)
      ensures routeTrace == Heard(config, old(Abs()), results).trace + calls
    {
      hide Observe, Choose;
      ObserveToolResults(results);
      requestIndex := requestIndex + 1;
      calls := ChooseCalls();
    }
  }

  lemma PlanKeeps(k: Config, p: Provider, heard: seq<ToolResult>, results: seq<ToolResult>)
    requires IsOrder(k.order) && RouteEvidence.Inv(p, heard) && RouteSafety.EditsOk(p)
    ensures var q := Plan(k, p, results);
            && RouteEvidence.Inv(q, heard + results) && RouteSafety.EditsOk(q)
            && forall total: nat :: RouteSafety.Planned(total, p) && RouteSafety.Answers(total, p, results) ==> RouteSafety.Planned(total, q)
  {
    hide *;
    RouteEvidence.PlanBacked(k, p, heard, results);
    RouteSafety.PlanEdits(k, p, results);
    forall total: nat | RouteSafety.Planned(total, p) && RouteSafety.Answers(total, p, results)
      ensures RouteSafety.Planned(total, Plan(k, p, results))
    {
      RouteSafety.PlanPlanned(total, k, p, results);
    }
  }
}
