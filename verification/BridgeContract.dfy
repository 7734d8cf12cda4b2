/** A bridge that keeps its side of the protocol never drives the runtime to failed, and
    exactly when that can break: a start that overlaps an unfinished shutdown. */
module BridgeContract {
  import opened Wrappers
  import opened Text
  import opened RuntimeModel
  import opened RuntimeSafety

  /** The requests the bridge has received and not answered after it wrote these lines,
      None if some line was malformed, announced "failed", or answered anything else. */
  function AnswerAll(parse: Parser, received: set<Id>, lines: seq<string>): Option<set<Id>> {
    if lines == [] then Some(received)
    else match Read(parse, StripCR(lines[0]))
      case AgentEvent(_) => AnswerAll(parse, received, lines[1..])
      case StateLine(s) => if s.Failed? then None else AnswerAll(parse, received, lines[1..])
      case Answer(id, _) => if id in received then AnswerAll(parse, received - {id}, lines[1..]) else None
      case Bad => None
  }

  /** The received and unanswered requests after one event, None if the event ends the
      contract: a fault of the bridge, a fault or end of the process, or a shutdown. A
      request whose write fails was not received. */
  function Track(parse: Parser, m: Runtime, received: set<Id>, e: Event): Option<set<Id>> {
    match e
    case OnRequest(id, valid, writeThrows) =>
      Some(if Accepts(m, valid, false) && !writeThrows then received + {id} else received)
    case OnWriteFailed(id) => Some(received - {id})
    case OnStdout(chunk) => AnswerAll(parse, received, Complete(m.buffer + chunk))
    case OnError(_) => None
    case OnExit(_) => None
    case OnClose(_, _) => None
    case OnShutdown(_, _, _) => None
    case _ => Some(received)
  }

  /** The unanswered requests at the end of a run in which the bridge keeps the contract. */
  function TrackAll(parse: Parser, m: Runtime, received: set<Id>, events: seq<Event>): Option<set<Id>>
    decreases |events|
  {
    if events == [] then Some(received)
    else match Track(parse, m, received, events[0])
      case None => None
      case Some(r) => TrackAll(parse, Step(parse, m, events[0]), r, events[1..])
  }

  ghost predicate Correlated(m: Runtime, received: set<Id>) {
    && (m.state.Ready? || m.state.Stopped?)
    && (forall id | id in received :: id in m.pending || id in m.timedOut)
  }

  ghost predicate Quiet(m: Runtime, received: set<Id>) {
    m.child.Some? && Correlated(m, received) && (m.shutdown.NoFrame? || m.shutdown.Done?)
  }

  lemma {:induction false} DrainCorrelated(parse: Parser, m: Runtime, received: set<Id>)
    requires Quiet(m, received) && Ledger(m) && AnswerAll(parse, received, Complete(m.buffer)).Some?
    ensures Quiet(Drain(parse, m), AnswerAll(parse, received, Complete(m.buffer)).value)
    decreases |m.buffer|
  {
    var newline := IndexOf(m.buffer, '\n');
    CutFirst(m.buffer);
    if newline >= 0 {
      var head, tail := m.buffer[..newline], m.buffer[newline + 1..];
      var m1 := m.(buffer := tail);
      var line := StripCR(head);
      var m2 := ConsumeLine(parse, m1, line);
      ConsumeLineKeepsBuffer(parse, m1, line);
      assert Ledger(m1);
      ConsumeLineKeeps(parse, m1, line);
      var rest := match Read(parse, line) case Answer(id, _) => received - {id} case _ => received;
      assert Quiet(m2, rest);
      DrainCorrelated(parse, m2, rest);
    }
  }

  lemma StepCorrelated(parse: Parser, m: Runtime, received: set<Id>, e: Event)
    requires Inv(m) && Quiet(m, received) && Enabled(m, e) && Track(parse, m, received, e).Some?
    ensures Quiet(Step(parse, m, e), Track(parse, m, received, e).value)
  {
    if e.OnStdout? {
      var m1 := m.(buffer := m.buffer + e.chunk);
      assert Ledger(m1);
      DrainCorrelated(parse, m1, received);
    }
  }

  /** From a start that overlaps no unfinished shutdown: whatever requests, timeouts, late
      answers and chunk boundaries interleave, the runtime does not fail, and every request
      the bridge still owes an answer is pending or remembered as timed out. */
  lemma {:induction false} GoodBridgeNeverFails(parse: Parser, m: Runtime, received: set<Id>, events: seq<Event>)
    requires Inv(m) && Quiet(m, received)
    requires CanRun(parse, m, events) && TrackAll(parse, m, received, events).Some?
    ensures Quiet(Exec(parse, m, events), TrackAll(parse, m, received, events).value)
    decreases |events|
  {
    if events != [] {
      StepKeeps(parse, m, events[0]);
      StepCorrelated(parse, m, received, events[0]);
      GoodBridgeNeverFails(parse, Step(parse, m, events[0]), Track(parse, m, received, events[0]).value, events[1..]);
    }
  }

  /** A bridge's unanswered requests stay known to the runtime in every run from this state. */
  ghost predicate SafeFrom(parse: Parser, m: Runtime) {
    forall events: seq<Event> | CanRun(parse, m, events) && TrackAll(parse, m, {}, events).Some? ::
      Correlated(Exec(parse, m, events), TrackAll(parse, m, {}, events).value)
  }

  lemma {:induction false} RunOn(parse: Parser, m: Runtime, received: set<Id>, a: seq<Event>, e: Event)
    requires CanRun(parse, m, a) && TrackAll(parse, m, received, a).Some?
    requires Enabled(Exec(parse, m, a), e) && Track(parse, Exec(parse, m, a), TrackAll(parse, m, received, a).value, e).Some?
    ensures CanRun(parse, m, a + [e]) && Exec(parse, m, a + [e]) == Step(parse, Exec(parse, m, a), e)
    ensures TrackAll(parse, m, received, a + [e])
         == Track(parse, Exec(parse, m, a), TrackAll(parse, m, received, a).value, e)
    decreases |a|
  {
    if a == [] {
      assert a + [e] == [e];
      assert [e][1..] == [];
    } else {
      assert (a + [e])[1..] == a[1..] + [e];
      RunOn(parse, Step(parse, m, a[0]), Track(parse, m, received, a[0]).value, a[1..], e);
    }
  }

  /** The last continuation of a shutdown that outlived its child: it rejects whatever the
      new child's requests are and forgets the timed-out ones. */
  lemma FinishForgets(parse: Parser, s: Runtime, received: set<Id>, done: seq<Event>, last: bool, id: Id)
    returns (events: seq<Event>)
    requires Inv(Exec(parse, s, done)) && CanRun(parse, s, done)
    requires TrackAll(parse, s, {}, done) == Some(received) && id in received
    requires Enabled(Exec(parse, s, done), OnResume(last, false))
    requires Exec(parse, s, done).shutdown.AwaitExit? && Exec(parse, s, done).child != Some(Exec(parse, s, done).shutdown.child)
    ensures CanRun(parse, s, events) && TrackAll(parse, s, {}, events) == Some(received)
    ensures !Correlated(Exec(parse, s, events), received)
  {
    var m := Exec(parse, s, done);
    RunOn(parse, s, {}, done, OnResume(last, false));
    events := done + [OnResume(last, false)];
    MarkFailedKeeps(m);
    RejectAllKeeps(MarkFailed(m), ShutdownTimeout);
    RejectAllKeeps(m, ShutdownTimeout);
    assert Exec(parse, s, events).pending == [] && Exec(parse, s, events).timedOut == {};
  }

  /** A start during an unfinished shutdown: one request to the new child, and the old
      shutdown's continuation makes the runtime forget it. */
  lemma OverlapLoses(parse: Parser, m: Runtime, c: Child, id: Id) returns (events: seq<Event>)
    requires Inv(m) && Enabled(m, OnStart(Spawns(c))) && Start(m, Spawns(c)).child == Some(c)
    requires c.hasInput && id !in H(m).accepted && (m.shutdown.AwaitRequest? || m.shutdown.AwaitExit?)
    ensures var s := Start(m, Spawns(c));
            CanRun(parse, s, events) && TrackAll(parse, s, {}, events) == Some({id})
            && !Correlated(Exec(parse, s, events), {id})
  {
    var s := Start(m, Spawns(c));
    assert m.child.None? && m.shutdown.child != c;
    StartKeeps(m, Spawns(c));
    var ask := OnRequest(id, true, false);
    RunOn(parse, s, {}, [], ask);
    assert [] + [ask] == [ask];
    assert {} + {id} == {id};
    events := [ask];
    StepKeeps(parse, s, ask);
    if m.shutdown.AwaitRequest? {
      events := PassRequest(parse, s, events, id);
    }
    var last := Exec(parse, s, events).shutdown.waitOn.None?;
    events := FinishForgets(parse, s, {id}, events, last, id);
  }

  /** Past the graceful request: at most its timer, then the first wait. */
  lemma PassRequest(parse: Parser, s: Runtime, done: seq<Event>, id: Id) returns (events: seq<Event>)
    requires Inv(Exec(parse, s, done)) && CanRun(parse, s, done) && TrackAll(parse, s, {}, done) == Some({id})
    requires var m := Exec(parse, s, done);
             m.shutdown.AwaitRequest? && m.child.Some? && m.child.value != m.shutdown.child
    ensures CanRun(parse, s, events) && TrackAll(parse, s, {}, events) == Some({id})
    ensures var m := Exec(parse, s, events);
            Inv(m) && m.shutdown.AwaitExit? && m.child.Some? && m.child.value != m.shutdown.child
            && m.shutdown.waitOn.Some?
  {
    events := done;
    var m := Exec(parse, s, done);
    var waiting := m.shutdown.id;
    if waiting.Some? && waiting.value in m.pending {
      var timer := OnTimeout(waiting.value);
      RunOn(parse, s, {}, done, timer);
      StepKeeps(parse, m, timer);
      RemoveGone(m.pending, waiting.value);
      m := Step(parse, m, timer);
      events := done + [timer];
    }
    RunOn(parse, s, {}, events, OnResume(false, false));
    StepKeeps(parse, m, OnResume(false, false));
    events := events + [OnResume(false, false)];
  }

  lemma RemoveGone(ids: seq<Id>, id: Id)
    ensures id !in Remove(ids, id)
  {
  }

  /** A start is safe for a well-behaved bridge if and only if no shutdown is unfinished. */
  lemma StartIsSafeIff(parse: Parser, m: Runtime, c: Child, id: Id)
    requires Inv(m) && Enabled(m, OnStart(Spawns(c))) && Start(m, Spawns(c)).child == Some(c)
    requires c.hasInput && id !in H(m).accepted
    ensures SafeFrom(parse, Start(m, Spawns(c))) <==> m.shutdown.NoFrame? || m.shutdown.Done?
  {
    StartKeeps(m, Spawns(c));
    var s := Start(m, Spawns(c));
    if m.shutdown.NoFrame? || m.shutdown.Done? {
      forall events: seq<Event> | CanRun(parse, s, events) && TrackAll(parse, s, {}, events).Some?
        ensures Correlated(Exec(parse, s, events), TrackAll(parse, s, {}, events).value)
      {
        GoodBridgeNeverFails(parse, s, {}, events);
      }
    } else {
      var events := OverlapLoses(parse, m, c, id);
      assert !Correlated(Exec(parse, s, events), TrackAll(parse, s, {}, events).value);
    }
  }

  lemma {:induction false} ExecAppend(parse: Parser, m: Runtime, a: seq<Event>, e: Event)
    ensures Exec(parse, m, a + [e]) == Step(parse, Exec(parse, m, a), e)
    ensures CanRun(parse, m, a + [e]) <==> CanRun(parse, m, a) && Enabled(Exec(parse, m, a), e)
    decreases |a|
  {
    if a == [] {
      assert a + [e] == [e] && [e][1..] == [];
    } else {
      assert (a + [e])[1..] == a[1..] + [e];
      ExecAppend(parse, Step(parse, m, a[0]), a[1..], e);
    }
  }

  /** One line that announces "stopped", with its line feed. */
  lemma StoppedLine(parse: Parser, m: Runtime, line: string)
    requires '\n' !in line && Read(parse, StripCR(line)) == StateLine(Stopped) && m.buffer == ""
    ensures ConsumeStdout(parse, m, line + "\n")
         == Emit(Emit(m, Handed(StripCR(line))).(state := Stopped), Notified(Stopped))
  {
    var b := line + "\n";
    assert "" + b == b && b[..|line|] == line && b[|line| + 1..] == "";
    IndexOfFirst(b, '\n', |line|);
    var m1 := m.(buffer := b);
    assert m1.(buffer := "") == m;
    assert Drain(parse, m1) == Drain(parse, ConsumeLine(parse, m, StripCR(line)));
  }

  /** A started child that is being asked to stop. */
  lemma AskedRun(parse: Parser, c: Child, id: Id) returns (events: seq<Event>, m: Runtime)
    requires c.hasInput
    ensures events == [OnStart(Spawns(c)), OnShutdown(true, id, false)]
    ensures CanRun(parse, Init, events) && Exec(parse, Init, events) == m
    ensures m.child == Some(c) && m.buffer == "" && m.shutdown.AwaitRequest? && H(m).spawned == {c} && H(m).closed == {}
  {
    var e1, e2 := OnStart(Spawns(c)), OnShutdown(true, id, false);
    AskedToStop(c, id);
    m := CloseChild(Start(Init, Spawns(c)), true, id, false);
    Extend(parse, [], Init, e1);
    assert [] + [e1] == [e1];
    Extend(parse, [e1], Start(Init, Spawns(c)), e2);
    events := [e1] + [e2];
  }

  /** The overlap does happen: the bridge announces "stopped" during a shutdown, the process
      closes before the shutdown continues, and the closed child is already released. */
  lemma OverlapIsReachable(parse: Parser, line: string, c: Child, id: Id, d: Child)
    returns (events: seq<Event>)
    requires '\n' !in line && Read(parse, StripCR(line)) == StateLine(Stopped) && c.hasInput && d != c
    ensures events == [OnStart(Spawns(c)), OnShutdown(true, id, false), OnStdout(line + "\n"), OnClose(c, "")]
    ensures CanRun(parse, Init, events)
    ensures var m := Exec(parse, Init, events);
            m.shutdown.AwaitRequest? && Enabled(m, OnStart(Spawns(d))) && Start(m, Spawns(d)).child == Some(d)
  {
    var asked, m2 := AskedRun(parse, c, id);
    var said, closed := OnStdout(line + "\n"), OnClose(c, "");
    assert c in H(m2).spawned - H(m2).closed;
    Extend(parse, asked, m2, said);
    StoppedLine(parse, m2, line);
    var m3 := ConsumeStdout(parse, m2, line + "\n");
    assert m3.child == Some(c) && m3.state.Stopped? && m3.buffer == "" && m3.shutdown == m2.shutdown;
    assert H(m3).spawned == {c} && H(m3).closed == {};
    events := CloseRun(parse, asked + [said], m3, c, d);
    assert events == [asked[0], asked[1], said, closed];
  }

  lemma CloseRun(parse: Parser, done: seq<Event>, m: Runtime, c: Child, d: Child) returns (events: seq<Event>)
    requires CanRun(parse, Init, done) && Exec(parse, Init, done) == m
    requires m.child == Some(c) && m.state.Stopped? && m.buffer == "" && m.shutdown.AwaitRequest?
    requires H(m).spawned == {c} && H(m).closed == {} && d != c
    ensures events == done + [OnClose(c, "")] && CanRun(parse, Init, events)
    ensures var r := Exec(parse, Init, events);
            r.shutdown.AwaitRequest? && Enabled(r, OnStart(Spawns(d))) && Start(r, Spawns(d)).child == Some(d)
  {
    Extend(parse, done, m, OnClose(c, ""));
    ReleasedAtOnce(parse, m, c);
    events := done + [OnClose(c, "")];
  }

  lemma Extend(parse: Parser, a: seq<Event>, m: Runtime, e: Event)
    requires CanRun(parse, Init, a) && Exec(parse, Init, a) == m && Enabled(m, e)
    ensures CanRun(parse, Init, a + [e]) && Exec(parse, Init, a + [e]) == Step(parse, m, e)
  {
    ExecAppend(parse, Init, a, e);
  }

  lemma AskedToStop(c: Child, id: Id)
    requires c.hasInput
    ensures id !in H(Start(Init, Spawns(c))).accepted
    ensures var m := CloseChild(Start(Init, Spawns(c)), true, id, false);
            && m.child == Some(c) && m.buffer == "" && m.shutdown.AwaitRequest?
            && H(m).spawned == {c} && H(m).closed == {}
  {
    var m1 := Start(Init, Spawns(c));
    assert m1.child == Some(c) && m1.state.Ready? && H(m1).spawned == {c} && H(m1).closed == {} && H(m1).accepted == {};
  }

  lemma ReleasedAtOnce(parse: Parser, m: Runtime, c: Child)
    requires m.child == Some(c) && m.state.Stopped? && m.buffer == ""
    ensures var r := HandleClose(parse, m, c, "");
            r.child.None? && r.state.Stopped? && r.shutdown == m.shutdown && H(r).spawned == H(m).spawned
  {
    assert m.buffer + "" == "";
  }
}
