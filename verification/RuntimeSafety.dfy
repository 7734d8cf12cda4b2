/** What the child-process boundary keeps in every reachable state of every run. */
module RuntimeSafety {
  import opened Wrappers
  import opened Text
  import opened RuntimeModel

  predicate NoDup(ids: seq<Id>) {
    forall i, j | 0 <= i < j < |ids| :: ids[i] != ids[j]
  }

  /** The request ledger: an accepted request is pending, or it has settled, once. */
  ghost predicate Ledger(m: Runtime) {
    var h := H(m);
    && NoDup(m.pending)
    && (forall id | id in m.pending :: id in h.accepted)
    && (forall id :: h.settled[id] == if id in h.accepted && id !in m.pending then 1 else 0)
    && m.timedOut <= h.expired
    && (forall id | id in h.expired :: h.settled[id] == 1)
  }

  /** Ownership: a spawned process whose close event is outstanding is the owned child. */
  ghost predicate Ownership(m: Runtime) {
    var h := H(m);
    && h.closed <= h.spawned
    && (forall c | c in h.spawned && c !in h.closed :: m.child == Some(c))
    && m.resolved <= h.closed
    && m.exitPromise == m.child
    && (m.child.Some? ==>
          && m.child.value in h.spawned
          && m.closeConfirmed == (if m.child.value in h.closed then m.child else None)
          && m.resolveExit == (if m.child.value in h.closed then None else m.child)
          && (m.child.value in h.closed ==> m.child.value in m.resolved))
    && (m.child.None? ==> m.closeConfirmed.None? && m.resolveExit.None?)
    && (m.state.Ready? || m.state.Starting? ==> m.child.Some?)
    && (m.state.Idle? ==> m.child.None?)
  }

  /** The signals of an attempt: nothing, SIGTERM, or SIGTERM and then SIGKILL, all to its child. */
  function Ladder(c: Child, window: nat): seq<(Child, Signal)>
    requires 1 <= window <= 3
  {
    [(c, SigTerm), (c, SigKill)][..window - 1]
  }

  ghost predicate GoodAttempt(a: Attempt) {
    && (exists window | 1 <= window <= 3 :: a.signals == Ladder(a.child, window))
    && a.windows <= 4
    && (a.ok ==> a.reaped)
  }

  /** At most one shutdown runs; it signals its own child only, in order, in four windows. */
  ghost predicate Shutdowns(m: Runtime) {
    var h := H(m);
    && !h.overlapped && !h.stray
    && (m.state.Stopping? ==> (m.shutdown.AwaitRequest? || m.shutdown.AwaitExit?) && m.child == Some(m.shutdown.child))
    && (forall i | 0 <= i < |h.ended| :: GoodAttempt(h.ended[i]))
    && (match m.shutdown
        case AwaitRequest(c, id) =>
          && h.run.Some? && h.run.value.child == c && c in h.spawned
          && (m.child == Some(c) || c in h.closed)
          && h.run.value.signals == [] && h.run.value.windows <= 1
        case AwaitExit(c, window, waitOn, _, _) =>
          && h.run.Some? && h.run.value.child == c && c in h.spawned
          && (m.child == Some(c) || c in h.closed)
          && 1 <= window <= 3
          && h.run.value.signals == Ladder(c, window) && h.run.value.windows <= window + 1
        case _ => h.run.None?)
  }

  ghost predicate Inv(m: Runtime) {
    Ledger(m) && Ownership(m) && Shutdowns(m)
  }

  // ----- operations that touch the ledger and the state, but not the child -----

  /** Everything but state, ledger, buffer and the corresponding log entries is as before. */
  ghost predicate SameBoundary(m: Runtime, r: Runtime) {
    var h, g := H(m), H(r);
    && r.child == m.child && r.closeConfirmed == m.closeConfirmed && r.exitPromise == m.exitPromise
    && r.resolveExit == m.resolveExit && r.resolved == m.resolved && r.shutdown == m.shutdown
    && g.spawned == h.spawned && g.closed == h.closed && g.run == h.run && g.ended == h.ended
    && g.overlapped == h.overlapped && g.stray == h.stray
    && (r.state == m.state || r.state.Failed? || r.state.Stopped? || (r.state.Ready? && m.state.Starting?))
  }

  lemma BoundaryKept(m: Runtime, r: Runtime)
    requires Ownership(m) && Shutdowns(m) && SameBoundary(m, r)
    ensures Ownership(r) && Shutdowns(r)
  {
  }

  lemma {:induction false} RemoveKeepsNoDup(ids: seq<Id>, id: Id)
    requires NoDup(ids)
    ensures NoDup(Remove(ids, id))
  {
    if ids != [] {
      assert NoDup(ids[1..]) by {
        forall i, j | 0 <= i < j < |ids[1..]| ensures ids[1..][i] != ids[1..][j] {
          assert ids[1..][i] == ids[i + 1] && ids[1..][j] == ids[j + 1];
        }
      }
      RemoveKeepsNoDup(ids[1..], id);
      var r := Remove(ids[1..], id);
      if ids[0] != id {
        assert forall k | 0 <= k < |ids[1..]| :: ids[1..][k] == ids[k + 1] != ids[0];
        forall i, j | 0 <= i < j < |[ids[0]] + r| ensures ([ids[0]] + r)[i] != ([ids[0]] + r)[j] {
          assert ([ids[0]] + r)[j] == r[j - 1];
          assert r[j - 1] in r;
          if i > 0 {
            assert ([ids[0]] + r)[i] == r[i - 1];
          }
        }
      }
    }
  }

  lemma SettleKeeps(m: Runtime, id: Id, o: Outcome)
    requires Ledger(m)
    ensures Ledger(Settle(m, id, o)) && SameBoundary(m, Settle(m, id, o))
  {
    RemoveKeepsNoDup(m.pending, id);
  }

  lemma MarkFailedKeeps(m: Runtime)
    requires Ledger(m)
    ensures Ledger(MarkFailed(m)) && SameBoundary(m, MarkFailed(m))
  {
  }

  lemma {:induction false} RejectAllKeeps(m: Runtime, why: Reason)
    requires Ledger(m)
    ensures var r := RejectAll(m, why);
            Ledger(r) && SameBoundary(m, r) && r.pending == [] && r.timedOut == {} && r.state == m.state
    decreases |m.pending|
  {
    if m.pending != [] {
      RemoveShorter(m.pending, m.pending[0]);
      SettleKeeps(m, m.pending[0], Rejected(why));
      RejectAllKeeps(Settle(m, m.pending[0], Rejected(why)), why);
    }
  }

  lemma FailMalformedKeeps(m: Runtime)
    requires Ledger(m)
    ensures var r := FailMalformed(m);
            Ledger(r) && SameBoundary(m, r) && r.pending == [] && r.state.Failed?
  {
    MarkFailedKeeps(m);
    RejectAllKeeps(MarkFailed(m), MalformedResponse);
  }

  lemma AnswerKeeps(m: Runtime, id: Id, outcome: Outcome)
    requires Ledger(m)
    ensures var r := ConsumeMessage(m, Answer(id, outcome)); Ledger(r) && SameBoundary(m, r)
  {
    if id in m.timedOut {
      var r := m.(timedOut := m.timedOut - {id});
      assert H(r) == H(m);
    } else if id in m.pending {
      SettleKeeps(m, id, outcome);
    } else {
      FailMalformedKeeps(m);
    }
  }

  lemma ConsumeMessageKeeps(m: Runtime, message: Message)
    requires Ledger(m)
    ensures Ledger(ConsumeMessage(m, message)) && SameBoundary(m, ConsumeMessage(m, message))
  {
    match message
    case Bad => FailMalformedKeeps(m);
    case AgentEvent(e) =>
    case StateLine(s) =>
    case Answer(id, outcome) => AnswerKeeps(m, id, outcome);
  }

  lemma ConsumeLineKeeps(parse: Parser, m: Runtime, line: string)
    requires Ledger(m)
    ensures Ledger(ConsumeLine(parse, m, line)) && SameBoundary(m, ConsumeLine(parse, m, line))
  {
    var m1 := Emit(m, Handed(line));
    assert Ledger(m1) && SameBoundary(m, m1);
    var message := Read(parse, line);
    ConsumeMessageKeeps(m1, message);
  }

  lemma {:induction false} DrainKeeps(parse: Parser, m: Runtime)
    requires Ledger(m)
    ensures Ledger(Drain(parse, m)) && SameBoundary(m, Drain(parse, m))
    decreases |m.buffer|
  {
    var newline := IndexOf(m.buffer, '\n');
    if newline >= 0 {
      var line := StripCR(m.buffer[..newline]);
      var m1 := m.(buffer := m.buffer[newline + 1..]);
      ConsumeLineKeepsBuffer(parse, m1, line);
      ConsumeLineKeeps(parse, m1, line);
      DrainKeeps(parse, ConsumeLine(parse, m1, line));
    }
  }

  lemma FlushKeeps(parse: Parser, m: Runtime, tail: string)
    requires Ledger(m)
    ensures Ledger(Flush(parse, m, tail)) && SameBoundary(m, Flush(parse, m, tail))
  {
    var m1 := m.(buffer := m.buffer + tail);
    ConsumeLineKeeps(parse, m1, StripCR(m1.buffer));
  }

  // ----- operations on the child -----

  lemma RequestKeeps(m: Runtime, id: Id, valid: bool, allowStopping: bool, writeThrows: bool)
    requires Ledger(m) && id !in H(m).accepted
    ensures var r := RequestInternal(m, id, valid, allowStopping, writeThrows);
            Ledger(r) && SameBoundary(m, r) && r.state == m.state
  {
    if Accepts(m, valid, allowStopping) {
      var m1 := Emit(m.(pending := m.pending + [id]), Accepted(id));
      assert m.pending + [id] == m1.pending;
      assert Ledger(m1);
      SettleKeeps(m1, id, Rejected(InputFailed));
    }
  }

  lemma TimeoutKeeps(m: Runtime, id: Id)
    requires Ledger(m) && id in m.pending
    ensures Ledger(TimeoutFires(m, id)) && SameBoundary(m, TimeoutFires(m, id))
  {
    RemoveKeepsNoDup(m.pending, id);
  }

  lemma StartKeeps(m: Runtime, spawn: Spawn)
    requires Inv(m) && Enabled(m, OnStart(spawn))
    ensures Inv(Start(m, spawn))
  {
    if m.state.Ready? || m.state.Starting? || m.state.Stopping? || m.child.Some? {
      return;
    }
    var m1 := m.(state := Starting, buffer := "", timedOut := {}, child := None);
    assert Ledger(m1);
    if spawn.Throws? {
      MarkFailedKeeps(m1);
    }
  }

  /** The close handler after its flush: the confirmation, and the failure it may report. */
  lemma ConfirmKeeps(m: Runtime, c: Child)
    requires Ledger(m)
    ensures var r := ConfirmClose(m, c);
            && Ledger(r) && SameBoundary(Emit(m.(closeConfirmed := Some(c)), CloseHandled(c)), r)
            && (r.state.Stopping? || r.state.Stopped? || r.state.Failed?)
            && (r.state.Stopping? ==> m.state.Stopping?)
  {
    var m2 := Emit(m.(closeConfirmed := Some(c)), CloseHandled(c));
    assert Ledger(m2);
    if !m2.state.Stopping? && !m2.state.Stopped? {
      MarkFailedKeeps(m2);
      RejectAllKeeps(MarkFailed(m2), ProcessExit);
    }
  }

  lemma CloseKeeps(parse: Parser, m: Runtime, c: Child, tail: string)
    requires Inv(m)
    ensures Inv(HandleClose(parse, m, c, tail))
  {
    if m.child == Some(c) {
      var m1 := Flush(parse, m, tail);
      FlushKeeps(parse, m, tail);
      BoundaryKept(m, m1);
      ConfirmKeeps(m1, c);
      ReleaseKeeps(m1, ConfirmClose(m1, c), c);
    }
  }

  lemma ReleaseKeeps(m: Runtime, m3: Runtime, c: Child)
    requires Ledger(m3) && Ownership(m) && Shutdowns(m) && m.child == Some(c)
    requires SameBoundary(Emit(m.(closeConfirmed := Some(c)), CloseHandled(c)), m3)
    requires m3.state.Stopping? || m3.state.Stopped? || m3.state.Failed?
    ensures Inv(ReleaseClosed(m3, c))
  {
  }

  lemma EnterWaitKeeps(m: Runtime, c: Child, window: nat, t: bool, k: bool)
    requires Ledger(m) && Ownership(m) && !H(m).overlapped && !H(m).stray
    requires forall i | 0 <= i < |H(m).ended| :: GoodAttempt(H(m).ended[i])
    requires 1 <= window <= 3 && H(m).run.Some? && H(m).run.value.child == c && c in H(m).spawned
    requires m.child == Some(c) || c in H(m).closed
    requires H(m).run.value.signals == Ladder(c, window) && H(m).run.value.windows <= window
    requires m.state.Stopping? ==> m.child == Some(c)
    ensures Inv(EnterWait(m, c, window, t, k))
  {
  }

  lemma EndedKeeps(m: Runtime, c: Child, ok: bool)
    requires Inv(m) && m.shutdown.AwaitExit? && m.shutdown.child == c
    requires ok ==> m.child != Some(c) || m.closeConfirmed == Some(c)
    requires !ok ==> m.state.Failed?
    ensures ok ==> Inv(Emit(Detach(m, c).(state := Stopped, shutdown := Done), ShutdownEnded(c, true)))
    ensures !ok ==> Inv(Emit(m.(shutdown := Done), ShutdownEnded(c, false)))
  {
    var a := H(m).run.value.(ok := ok, reaped := H(m).run.value.child in H(m).closed);
    assert a.signals == Ladder(a.child, m.shutdown.window);
    assert GoodAttempt(a);
  }

  lemma FinishKeeps(m: Runtime, c: Child, exited: bool)
    requires Inv(m) && m.shutdown.AwaitExit? && m.shutdown.child == c
    ensures var r := FinishShutdown(m, c, exited);
            Inv(r) && r.pending == []
  {
    if !exited || (m.child == Some(c) && m.closeConfirmed != Some(c)) {
      var m1 := MarkFailed(m);
      MarkFailedKeeps(m);
      var m2 := RejectAll(m1, ShutdownTimeout);
      RejectAllKeeps(m1, ShutdownTimeout);
      BoundaryKept(m, m1);
      BoundaryKept(m1, m2);
      EndedKeeps(m2, c, false);
    } else {
      RejectAllKeeps(m, ShutdownTimeout);
      var m1 := RejectAll(m, ShutdownTimeout);
      BoundaryKept(m, m1);
      EndedKeeps(m1, c, true);
    }
  }

  lemma ResumeKeeps(m: Runtime, exited: bool, accepted: bool)
    requires Inv(m) && Enabled(m, OnResume(exited, accepted))
    ensures Inv(Resume(m, exited, accepted))
  {
    match m.shutdown
    case AwaitRequest(c, _) =>
      EnterWaitKeeps(Emit(m, InputEnded(c)), c, 1, false, false);
    case AwaitExit(c, window, _, t, k) =>
      if !exited && m.child == Some(c) && window == 1 {
        assert Ladder(c, 1) + [(c, SigTerm)] == Ladder(c, 2);
        EnterWaitKeeps(Emit(m, Sent(c, SigTerm)), c, 2, accepted, k);
      } else if !exited && m.child == Some(c) && window == 2 {
        assert Ladder(c, 2) + [(c, SigKill)] == Ladder(c, 3);
        EnterWaitKeeps(Emit(m, Sent(c, SigKill)), c, 3, t, accepted);
      } else {
        FinishKeeps(m, c, exited);
      }
  }

  /** The graceful request of a shutdown: accepted or refused, the shutdown now awaits it. */
  lemma AskKeeps(m: Runtime, c: Child, id: Id, writeThrows: bool)
    requires Inv(m) && m.shutdown.NoFrame? && m.child == Some(c) && id !in H(m).accepted
    ensures var m1 := Emit(m.(state := Stopping), ShutdownBegan(c));
            var m2 := RequestInternal(m1, id, true, true, writeThrows);
            && Inv(Emit(m2.(shutdown := AwaitRequest(c, Some(id))), WindowOpened))
            && Inv(m1.(shutdown := AwaitRequest(c, None)))
  {
    var m1 := Emit(m.(state := Stopping), ShutdownBegan(c));
    assert Ledger(m1);
    RequestKeeps(m1, id, true, true, writeThrows);
    var m2 := RequestInternal(m1, id, true, true, writeThrows);
    assert H(m2).run == Some(Attempt(c, [], 0, false, false));
    var m3 := Emit(m2.(shutdown := AwaitRequest(c, Some(id))), WindowOpened);
    assert Ledger(m3);
    assert Ownership(m3);
  }

  lemma CloseChildKeeps(m: Runtime, requestBridge: bool, id: Id, writeThrows: bool)
    requires Inv(m) && id !in H(m).accepted
    ensures Inv(CloseChild(m, requestBridge, id, writeThrows))
  {
    if m.shutdown.NoFrame? && m.child.Some? && !m.state.Idle? {
      var c := m.child.value;
      var m1 := Emit(m.(state := Stopping), ShutdownBegan(c));
      if requestBridge {
        AskKeeps(m, c, id, writeThrows);
      } else {
        assert Ledger(m1);
        EnterWaitKeeps(Emit(m1, InputEnded(c)), c, 1, false, false);
      }
    }
  }

  predicate OnLedger(e: Event) {
    e.OnRequest? || e.OnWriteFailed? || e.OnTimeout? || e.OnStdout? || e.OnError? || e.OnExit?
  }

  lemma LedgerStep(parse: Parser, m: Runtime, e: Event)
    requires Ledger(m) && Enabled(m, e) && OnLedger(e)
    ensures Ledger(Step(parse, m, e)) && SameBoundary(m, Step(parse, m, e))
  {
    match e
    case OnRequest(id, valid, writeThrows) => RequestKeeps(m, id, valid, false, writeThrows);
    case OnWriteFailed(id) => SettleKeeps(m, id, Rejected(InputFailed));
    case OnTimeout(id) => TimeoutKeeps(m, id);
    case OnStdout(chunk) =>
      assert Ledger(m.(buffer := m.buffer + chunk));
      DrainKeeps(parse, m.(buffer := m.buffer + chunk));
    case OnError(c) =>
      MarkFailedKeeps(m);
      RejectAllKeeps(if m.state.Stopping? then m else MarkFailed(m), ProcessError);
    case OnExit(c) =>
      MarkFailedKeeps(m);
      RejectAllKeeps(MarkFailed(m), ProcessExit);
  }

  /** The main safety step: whatever happens next, the three invariants hold again. */
  lemma StepKeeps(parse: Parser, m: Runtime, e: Event)
    requires Inv(m) && Enabled(m, e)
    ensures Inv(Step(parse, m, e))
  {
    if OnLedger(e) {
      LedgerStep(parse, m, e);
      BoundaryKept(m, Step(parse, m, e));
    } else {
      match e
      case OnStart(spawn) => StartKeeps(m, spawn);
      case OnClose(c, tail) => CloseKeeps(parse, m, c, tail);
      case OnShutdown(requestBridge, id, writeThrows) => CloseChildKeeps(m, requestBridge, id, writeThrows);
      case OnResume(exited, accepted) => ResumeKeeps(m, exited, accepted);
      case OnRelease =>
    }
  }

  lemma {:induction false} RunKeeps(parse: Parser, m: Runtime, events: seq<Event>)
    requires Inv(m) && CanRun(parse, m, events)
    ensures Inv(Exec(parse, m, events))
    decreases |events|
  {
    if events != [] {
      StepKeeps(parse, m, events[0]);
      RunKeeps(parse, Step(parse, m, events[0]), events[1..]);
    }
  }

  // ----- the claims about every run from the beginning -----

  /** At most one spawned child has not had its close event handled, and it is the owned one. */
  ghost predicate OneLive(m: Runtime) {
    var live := H(m).spawned - H(m).closed;
    (forall c, d | c in live && d in live :: c == d) && (forall c | c in live :: m.child == Some(c))
  }

  /** What holds of the runtime between any two events. */
  ghost predicate Kept(m: Runtime) {
    Inv(m) && OneLive(m)
  }

  lemma AfterStep(parse: Parser, m: Runtime, e: Event)
    requires Kept(m) && Enabled(m, e)
    ensures Kept(Step(parse, m, e))
  {
    hide Step;
    StepKeeps(parse, m, e);
    LiveIsOne(Step(parse, m, e));
  }

  lemma AfterStart(parse: Parser, m: Runtime, spawn: Spawn)
    requires Kept(m) && Enabled(m, OnStart(spawn))
    ensures Kept(Start(m, spawn))
  {
    AfterStep(parse, m, OnStart(spawn));
  }

  lemma AfterError(parse: Parser, m: Runtime, c: Child)
    requires Kept(m) && Enabled(m, OnError(c))
    ensures Kept(HandleError(m, c))
  {
    AfterStep(parse, m, OnError(c));
  }

  lemma AfterExit(parse: Parser, m: Runtime, c: Child)
    requires Kept(m) && Enabled(m, OnExit(c))
    ensures Kept(HandleExit(m, c))
  {
    AfterStep(parse, m, OnExit(c));
  }

  lemma AfterResume(parse: Parser, m: Runtime, exited: bool, accepted: bool)
    requires Kept(m) && Enabled(m, OnResume(exited, accepted))
    ensures Kept(Resume(m, exited, accepted))
  {
    AfterStep(parse, m, OnResume(exited, accepted));
  }

  lemma AfterStdout(parse: Parser, m: Runtime, chunk: string)
    requires Kept(m) && Enabled(m, OnStdout(chunk))
    ensures Kept(ConsumeStdout(parse, m, chunk))
  {
    AfterStep(parse, m, OnStdout(chunk));
  }

  lemma AfterClose(parse: Parser, m: Runtime, c: Child, tail: string)
    requires Kept(m) && Enabled(m, OnClose(c, tail))
    ensures Kept(HandleClose(parse, m, c, tail))
  {
    AfterStep(parse, m, OnClose(c, tail));
  }

  lemma AfterCloseChild(parse: Parser, m: Runtime, requestBridge: bool, id: Id, writeThrows: bool)
    requires Kept(m) && Enabled(m, OnShutdown(requestBridge, id, writeThrows))
    ensures Kept(CloseChild(m, requestBridge, id, writeThrows))
  {
    AfterStep(parse, m, OnShutdown(requestBridge, id, writeThrows));
  }

  lemma LiveIsOne(m: Runtime)
    requires Inv(m)
    ensures OneLive(m)
  {
  }

  /** At most one spawned child has not had its close event handled, it is the owned one,
      and no start can replace it. */
  lemma OneLiveChild(parse: Parser, events: seq<Event>, spawn: Spawn)
    requires CanRun(parse, Init, events)
    ensures var m := Exec(parse, Init, events);
            OneLive(m) && (H(m).spawned - H(m).closed != {} ==> Start(m, spawn) == m)
  {
    RunKeeps(parse, Init, events);
    LiveIsOne(Exec(parse, Init, events));
  }

  /** Every accepted request is pending or has settled, exactly once; ids waiting for a late
      response have settled by timeout and are never pending. */
  lemma SettledOnce(parse: Parser, events: seq<Event>, id: Id)
    requires CanRun(parse, Init, events)
    ensures var m := Exec(parse, Init, events);
            && H(m).settled[id] <= 1
            && (id in H(m).accepted <==> id in m.pending || H(m).settled[id] == 1)
            && !(id in m.pending && H(m).settled[id] == 1)
            && (id in m.timedOut ==> id in H(m).expired && id !in m.pending)
  {
    RunKeeps(parse, Init, events);
  }

  /** Nothing stays pending after a shutdown that has settled, whichever way it settled. */
  lemma PendingReleasedByShutdown(m: Runtime, exited: bool, accepted: bool)
    requires Inv(m) && Enabled(m, OnResume(exited, accepted))
    ensures Resume(m, exited, accepted).shutdown.Done? ==> Resume(m, exited, accepted).pending == []
  {
    if m.shutdown.AwaitExit? {
      FinishKeeps(m, m.shutdown.child, exited);
    }
  }

  /** However shutdown callers interleave: shutdowns never overlap, no signal or window
      belongs to none of them, each one climbs SIGTERM then SIGKILL on its own child within
      four windows, and one that returns normally has had its child's close handled. */
  lemma ShutdownContract(parse: Parser, events: seq<Event>)
    requires CanRun(parse, Init, events)
    ensures var h := H(Exec(parse, Init, events));
            && !h.overlapped && !h.stray
            && (forall i | 0 <= i < |h.ended| :: GoodAttempt(h.ended[i]))
            && (h.run.Some? ==>
                  && h.run.value.windows <= 4
                  && h.run.value.signals <= [(h.run.value.child, SigTerm), (h.run.value.child, SigKill)])
  {
    RunKeeps(parse, Init, events);
  }
}
