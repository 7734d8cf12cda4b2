/** What is done to a child, in full and in order: how it is started, what a request does, and every
    signal, window and rejection of a shutdown, for a child that closes in any window and for one that
    never does. */
module RuntimeStages {
  import opened Wrappers
  import opened RuntimeModel
  import opened RuntimeSafety
  import opened RuntimeAnswers

  // ----- children that are not owned -----

  /** The events of a child that is not owned, or no longer, change nothing at all; nor does the exit of
      any child during a shutdown, for the close event is what counts. */
  lemma OthersAreIgnored(parse: Parser, m: Runtime, c: Child, tail: string)
    ensures m.child != Some(c) ==>
              && Step(parse, m, OnError(c)) == m && Step(parse, m, OnExit(c)) == m && Step(parse, m, OnClose(c, tail)) == m
    ensures m.state.Stopping? ==> Step(parse, m, OnExit(c)) == m
  {
  }

  /** After the close of the owned child no output of it is left. */
  lemma CloseEmptiesBuffer(parse: Parser, m: Runtime, c: Child, tail: string)
    requires m.child == Some(c)
    ensures Step(parse, m, OnClose(c, tail)).buffer == ""
  {
    var n := Flush(parse, m, tail);
    assert n.buffer == "";
    var confirmed := Emit(n.(closeConfirmed := Some(c)), CloseHandled(c));
    RejectAllKeepsBuffer(MarkFailed(confirmed), ProcessExit);
    hide Flush, RejectAll;
    assert ConfirmClose(n, c).buffer == "";
    hide ConfirmClose;
  }

  /** These may come at any time, whatever state the runtime is in. */
  lemma MayAlwaysCome(m: Runtime, id: Id, c: Child)
    ensures Enabled(m, OnWriteFailed(id)) && Enabled(m, OnError(c)) && Enabled(m, OnExit(c)) && Enabled(m, OnStart(Throws))
    ensures id !in H(m).accepted ==> Enabled(m, OnRequest(id, true, false)) && Enabled(m, OnShutdown(true, id, false))
  {
  }

  // ----- start and request -----

  predicate MayStart(m: Runtime) {
    m.child.None? && (m.state.Idle? || m.state.Stopped? || m.state.Failed?)
  }

  /** A start is refused, or the new child is owned with nothing left over from the one before; if it
      cannot be spawned, the runtime says so and has failed. */
  lemma StartStarts(parse: Parser, m: Runtime, c: Child)
    ensures var r := Step(parse, m, OnStart(Spawns(c)));
            if MayStart(m) then
              && r.state == Ready && r.child == Some(c) && r.log == m.log + [Spawned(c)]
              && r.buffer == "" && r.timedOut == {} && r.pending == m.pending && r.exitPromise == Some(c)
            else r == m
    ensures var r := Step(parse, m, OnStart(Throws));
            if MayStart(m) then
              && r.state == Failed && r.child == None && r.log == m.log + [Notified(Failed)]
              && r.buffer == "" && r.timedOut == {} && r.pending == m.pending
            else r == m
  {
  }

  /** A request is accepted exactly if it is valid, the runtime is ready or starting, and its child can be
      written to; then it is pending, unless the write fails at once. */
  lemma RequestIsAccepted(parse: Parser, m: Runtime, id: Id, valid: bool, writeThrows: bool)
    requires id !in m.pending
    ensures var r := Step(parse, m, OnRequest(id, valid, writeThrows));
            if valid && (m.state == Ready || m.state == Starting) && m.child.Some? && m.child.value.hasInput then
              && r.log == m.log + (if writeThrows then [Accepted(id), Settled(id, Rejected(InputFailed))] else [Accepted(id)])
              && (id in r.pending <==> !writeThrows) && (forall x | x != id :: x in r.pending <==> x in m.pending)
              && r.state == m.state && r.child == m.child
            else r == m
  {
    Regroup(m.log, Accepted(id), Settled(id, Rejected(InputFailed)));
  }

  /** A write that fails later settles the request, if it is still pending. */
  lemma WriteFailsLater(parse: Parser, m: Runtime, id: Id)
    ensures var r := Step(parse, m, OnWriteFailed(id));
            if id in m.pending then
              && r.log == m.log + [Settled(id, Rejected(InputFailed))] && r.state == m.state
              && forall x :: x in r.pending <==> x in m.pending && x != id
            else r == m
  {
  }

  lemma Regroup(log: seq<Effect>, a: Effect, b: Effect)
    ensures log + [a] + [b] == log + [a, b]
  {
  }

  /** A shutdown joins the one under way; without a child, or before the first start, it stops at once. */
  lemma NothingToClose(parse: Parser, m: Runtime, requestBridge: bool, id: Id, writeThrows: bool)
    ensures var r := Step(parse, m, OnShutdown(requestBridge, id, writeThrows));
            && (m.shutdown != NoFrame ==> r == m)
            && (m.shutdown == NoFrame && (m.child == None || m.state == Idle) ==>
                  r.state == Stopped && r.log == m.log && r.child == m.child && r.pending == m.pending && r.shutdown == NoFrame)
  {
  }

  // ----- shutdown, stage by stage -----

  /** Everything between the log and what the child is, during a shutdown of `c`. */
  predicate Closing(m: Runtime, c: Child, pending: seq<Id>) {
    && m.state == Stopping && m.child == Some(c) && m.exitPromise == Some(c) && m.closeConfirmed != Some(c)
    && m.pending == pending && m.buffer == "" && m.resolveExit == Some(c)
  }

  /** In its first, second or third wait. */
  predicate Waits(m: Runtime, c: Child, window: nat, pending: seq<Id>) {
    Closing(m, c, pending) && m.shutdown.AwaitExit? && m.shutdown.child == c && m.shutdown.window == window && m.shutdown.waitOn == Some(c)
  }

  /** A runtime that owns a child which has not closed, with no shutdown under way. */
  ghost predicate Running(m: Runtime, c: Child) {
    Inv(m) && m.child == Some(c) && m.shutdown.NoFrame? && c !in H(m).closed && m.buffer == ""
  }

  lemma Owns(m: Runtime, c: Child)
    requires Running(m, c)
    ensures m.exitPromise == Some(c) && m.closeConfirmed != Some(c) && m.resolveExit == Some(c) && !m.state.Idle?
    ensures c in H(m).spawned && NoDup(m.pending) && forall id | id in m.pending :: id in H(m).accepted
  {
  }

  lemma BeginsUnasked(m: Runtime, c: Child, id: Id)
    requires Running(m, c)
    ensures var r := CloseChild(m, false, id, false);
            Waits(r, c, 1, m.pending) && r.log == m.log + [ShutdownBegan(c), InputEnded(c), WindowOpened]
  {
    Owns(m, c);
    hide Inv;
    Regroup(m.log, ShutdownBegan(c), InputEnded(c));
    assert m.log + [ShutdownBegan(c), InputEnded(c)] + [WindowOpened] == m.log + [ShutdownBegan(c), InputEnded(c), WindowOpened];
  }

  lemma BeginsAsked(m: Runtime, c: Child, id: Id)
    requires Running(m, c) && c.hasInput && id !in H(m).accepted
    ensures var r := CloseChild(m, true, id, false);
            && Closing(r, c, m.pending + [id]) && r.shutdown == AwaitRequest(c, Some(id)) && NoDup(r.pending)
            && r.log == m.log + [ShutdownBegan(c), Accepted(id), WindowOpened]
  {
    Owns(m, c);
    hide Inv;
    Regroup(m.log, ShutdownBegan(c), Accepted(id));
    assert m.log + [ShutdownBegan(c), Accepted(id)] + [WindowOpened] == m.log + [ShutdownBegan(c), Accepted(id), WindowOpened];
  }

  /** A child without an input cannot be asked: nothing is sent, and the shutdown goes on at once. */
  lemma CannotBeAsked(m: Runtime, c: Child, id: Id, writeThrows: bool)
    requires Running(m, c) && !c.hasInput
    ensures var r := CloseChild(m, true, id, writeThrows);
            && Closing(r, c, m.pending) && r.log == m.log + [ShutdownBegan(c)] && Enabled(r, OnResume(true, true))
            && Waits(Resume(r, true, true), c, 1, m.pending)
  {
    Owns(m, c);
    hide Inv;
  }

  lemma {:induction false} RemoveLast(ids: seq<Id>, id: Id)
    requires id !in ids
    ensures Remove(ids + [id], id) == ids
    decreases |ids|
  {
    if ids == [] {
      assert ids + [id] == [id];
    } else {
      assert (ids + [id])[1..] == ids[1..] + [id];
      RemoveLast(ids[1..], id);
    }
  }

  /** The bridge does not answer: the input ends, and the first wait begins. */
  lemma Unanswered(m: Runtime, c: Child, id: Id, pending: seq<Id>)
    requires Closing(m, c, pending + [id]) && m.shutdown == AwaitRequest(c, Some(id)) && id !in pending
    ensures Enabled(m, OnTimeout(id)) && Enabled(TimeoutFires(m, id), OnResume(false, true))
    ensures var r := Resume(TimeoutFires(m, id), false, true);
            && Waits(r, c, 1, pending)
            && r.log == m.log + [Settled(id, Rejected(RequestTimeout)), InputEnded(c), WindowOpened]
  {
    RemoveLast(pending, id);
    var e := Settled(id, Rejected(RequestTimeout));
    Regroup(m.log, e, InputEnded(c));
    assert m.log + [e, InputEnded(c)] + [WindowOpened] == m.log + [e, InputEnded(c), WindowOpened];
  }

  /** A wait that runs out: the next signal, and the next wait. */
  lemma RunsOut(m: Runtime, c: Child, window: nat, pending: seq<Id>, accepted: bool)
    requires Waits(m, c, window, pending) && 1 <= window <= 2
    ensures Enabled(m, OnResume(false, accepted))
    ensures var r := Resume(m, false, accepted);
            && Waits(r, c, window + 1, pending)
            && r.log == m.log + [Sent(c, if window == 1 then SigTerm else SigKill), WindowOpened]
  {
    Regroup(m.log, Sent(c, if window == 1 then SigTerm else SigKill), WindowOpened);
  }

  /** The last one: the shutdown fails, and the child stays owned. */
  lemma GivesUp(m: Runtime, c: Child, pending: seq<Id>, accepted: bool)
    requires Waits(m, c, 3, pending) && NoDup(pending)
    ensures Enabled(m, OnResume(false, accepted))
    ensures var r := Resume(m, false, accepted);
            && r.state == Failed && r.child == Some(c) && r.pending == [] && r.shutdown == Done
            && r.log == m.log + ([Notified(Failed)] + Rejections(pending, ShutdownTimeout) + [ShutdownEnded(c, false)])
  {
    FailedTells(m, ShutdownTimeout);
    RejectAllLeaves(MarkFailed(m), ShutdownTimeout);
    Regrouped(m.log, FailureLog(m, ShutdownTimeout), [ShutdownEnded(c, false)]);
  }

  lemma {:induction false} RejectAllLeaves(m: Runtime, why: Reason)
    ensures var r := RejectAll(m, why);
            r.state == m.state && r.child == m.child && r.pending == [] && r.closeConfirmed == m.closeConfirmed && r.exitPromise == m.exitPromise
    decreases |m.pending|
  {
    if m.pending != [] {
      RemoveShorter(m.pending, m.pending[0]);
      RejectAllLeaves(Settle(m, m.pending[0], Rejected(why)), why);
    }
  }

  /** The child closes while it is waited for: the shutdown is over, and the child is let go. */
  lemma ClosesInTime(parse: Parser, m: Runtime, c: Child, window: nat, pending: seq<Id>, accepted: bool)
    requires Waits(m, c, window, pending) && NoDup(pending) && 1 <= window <= 3
    ensures var n := Step(parse, m, OnClose(c, ""));
            && Enabled(n, OnResume(true, accepted))
            && var r := Step(parse, n, OnResume(true, accepted));
               && r.state == Stopped && r.child == None && r.pending == [] && r.shutdown == Done
               && r.log == m.log + ([CloseHandled(c)] + Rejections(pending, ShutdownTimeout) + [ShutdownEnded(c, true)])
  {
    var n := Step(parse, m, OnClose(c, ""));
    ClosedWhileWaiting(parse, m, c, window, pending);
    RejectAllTells(n, ShutdownTimeout);
    RejectAllLeaves(n, ShutdownTimeout);
    var told := Rejections(pending, ShutdownTimeout);
    Regrouped(m.log, [CloseHandled(c)], told);
    Regrouped(m.log, [CloseHandled(c)] + told, [ShutdownEnded(c, true)]);
    hide HandleClose, RejectAll, Rejections;
  }

  lemma ClosedWhileWaiting(parse: Parser, m: Runtime, c: Child, window: nat, pending: seq<Id>)
    requires Waits(m, c, window, pending)
    ensures var n := Step(parse, m, OnClose(c, ""));
            && n.state == Stopping && n.child == Some(c) && n.closeConfirmed == Some(c) && c in n.resolved && n.shutdown == m.shutdown
            && n.pending == pending && n.log == m.log + [CloseHandled(c)]
  {
    assert m.buffer + "" == "";
  }

  /** Its caller clears the shutdown, and the next one may begin. */
  lemma Released(parse: Parser, m: Runtime)
    requires m.shutdown == Done
    ensures Enabled(m, OnRelease) && Step(parse, m, OnRelease) == m.(shutdown := NoFrame)
  {
  }

  // ----- whole shutdowns -----

  /** The signals of the waits before the one in which the child closes. */
  function SignalsBefore(c: Child, window: nat): seq<Effect> {
    if window <= 1 then []
    else if window == 2 then [Sent(c, SigTerm), WindowOpened]
    else [Sent(c, SigTerm), WindowOpened, Sent(c, SigKill), WindowOpened]
  }

  function RunningOut(waits: nat): seq<Event> {
    if waits == 0 then [] else RunningOut(waits - 1) + [OnResume(false, true)]
  }

  lemma {:induction false} ExecOne(parse: Parser, m: Runtime, events: seq<Event>, e: Event)
    requires CanRun(parse, m, events) && Enabled(Exec(parse, m, events), e)
    ensures CanRun(parse, m, events + [e]) && Exec(parse, m, events + [e]) == Step(parse, Exec(parse, m, events), e)
    decreases |events|
  {
    hide Step, Enabled;
    if events == [] {
      assert [e][1..] == [] && events + [e] == [e];
    } else {
      assert (events + [e])[1..] == events[1..] + [e];
      ExecOne(parse, Step(parse, m, events[0]), events[1..], e);
    }
  }

  /** The waits before the window run out, one after the other. */
  lemma {:induction false} Waiting(parse: Parser, m: Runtime, c: Child, waits: nat, events: seq<Event>)
    requires Running(m, c) && waits <= 2 && events != [] && CanRun(parse, m, events)
    requires Waits(Exec(parse, m, events), c, 1, m.pending)
    ensures CanRun(parse, m, events + RunningOut(waits))
    ensures var r := Exec(parse, m, events + RunningOut(waits));
            Waits(r, c, waits + 1, m.pending) && r.log == Exec(parse, m, events).log + SignalsBefore(c, waits + 1)
    decreases waits
  {
    hide Exec, CanRun, Waits, Running, Enabled;
    if waits == 0 {
      assert events + RunningOut(0) == events;
    } else {
      Waiting(parse, m, c, waits - 1, events);
      var before := events + RunningOut(waits - 1);
      var r := Exec(parse, m, before);
      RunsOut(r, c, waits, m.pending, true);
      ExecOne(parse, m, before, OnResume(false, true));
      assert before + [OnResume(false, true)] == events + RunningOut(waits);
      NextSignal(Exec(parse, m, events).log, c, waits);
    }
  }

  lemma NextSignal(log: seq<Effect>, c: Child, window: nat)
    requires 1 <= window <= 2
    ensures log + SignalsBefore(c, window) + [Sent(c, if window == 1 then SigTerm else SigKill), WindowOpened] == log + SignalsBefore(c, window + 1)
  {
  }

  /** The whole of a shutdown whose child closes in its first, second or third wait: its input ends; the
      signals before that wait are sent, each with a window of its own; every pending request hears that
      the runtime has stopped; and the child is let go. */
  lemma ClosingChild(parse: Parser, m: Runtime, c: Child, id: Id, window: nat)
    requires Running(m, c) && 1 <= window <= 3 && id !in H(m).accepted
    ensures var events := [OnShutdown(false, id, false)] + RunningOut(window - 1) + [OnClose(c, "")] + [OnResume(true, true)] + [OnRelease];
            && CanRun(parse, m, events)
            && var r := Exec(parse, m, events);
               && r.state == Stopped && r.child == None && r.pending == [] && r.shutdown == NoFrame
               && r.log == m.log + [ShutdownBegan(c), InputEnded(c), WindowOpened] + SignalsBefore(c, window)
                  + ([CloseHandled(c)] + Rejections(m.pending, ShutdownTimeout) + [ShutdownEnded(c, true)])
  {
    var begin := [OnShutdown(false, id, false)];
    First(parse, m, begin[0]);
    BeginsUnasked(m, c, id);
    Owns(m, c);
    Waiting(parse, m, c, window - 1, begin);
    var waited := begin + RunningOut(window - 1);
    var n := Exec(parse, m, waited);
    RunKeepsSpawned(parse, m, c, waited, window);
    ClosesInTime(parse, n, c, window, m.pending, true);
    hide Exec, CanRun, Waits, Running, Enabled, Step, Rejections;
    ExecOne(parse, m, waited, OnClose(c, ""));
    ExecOne(parse, m, waited + [OnClose(c, "")], OnResume(true, true));
    var done := waited + [OnClose(c, "")] + [OnResume(true, true)];
    Released(parse, Exec(parse, m, done));
    ExecOne(parse, m, done, OnRelease);
  }

  lemma First(parse: Parser, m: Runtime, e: Event)
    requires Enabled(m, e)
    ensures CanRun(parse, m, [e]) && Exec(parse, m, [e]) == Step(parse, m, e)
  {
    assert [e][1..] == [];
  }

  /** The close event may come: the child was spawned and has not closed. */
  lemma RunKeepsSpawned(parse: Parser, m: Runtime, c: Child, events: seq<Event>, window: nat)
    requires Running(m, c) && CanRun(parse, m, events) && Waits(Exec(parse, m, events), c, window, m.pending)
    ensures Enabled(Exec(parse, m, events), OnClose(c, ""))
  {
    RunKeeps(parse, m, events);
    hide Exec, CanRun;
  }

  /** The whole of a shutdown whose bridge does not answer and whose child never closes: it is asked, its
      input ends, SIGTERM and then SIGKILL, each after a window; then the runtime has failed, every pending
      request hears it, and the child stays owned. */
  lemma StubbornChild(parse: Parser, m: Runtime, c: Child, id: Id)
    requires Running(m, c) && c.hasInput && id !in H(m).accepted
    ensures var events := [OnShutdown(true, id, false)] + [OnTimeout(id)] + [OnResume(false, true)] + RunningOut(2) + [OnResume(false, true)]
                             + [OnRelease];
            && CanRun(parse, m, events)
            && var r := Exec(parse, m, events);
               && r.state == Failed && r.child == Some(c) && r.pending == [] && r.shutdown == NoFrame
               && r.log == m.log + [ShutdownBegan(c), Accepted(id), WindowOpened]
                  + [Settled(id, Rejected(RequestTimeout)), InputEnded(c), WindowOpened]
                  + [Sent(c, SigTerm), WindowOpened, Sent(c, SigKill), WindowOpened]
                  + ([Notified(Failed)] + Rejections(m.pending, ShutdownTimeout) + [ShutdownEnded(c, false)])
  {
    var begin := [OnShutdown(true, id, false)];
    First(parse, m, begin[0]);
    BeginsAsked(m, c, id);
    Owns(m, c);
    var a := Exec(parse, m, begin);
    Unanswered(a, c, id, m.pending);
    ExecOne(parse, m, begin, OnTimeout(id));
    var asked := begin + [OnTimeout(id)] + [OnResume(false, true)];
    ExecOne(parse, m, begin + [OnTimeout(id)], OnResume(false, true));
    Waiting(parse, m, c, 2, asked);
    GivesUp(Exec(parse, m, asked + RunningOut(2)), c, m.pending, true);
    hide Exec, CanRun, Waits, Running, Enabled, Rejections;
    ExecOne(parse, m, asked + RunningOut(2), OnResume(false, true));
    var done := asked + RunningOut(2) + [OnResume(false, true)];
    Released(parse, Exec(parse, m, done));
    ExecOne(parse, m, done, OnRelease);
  }
}
