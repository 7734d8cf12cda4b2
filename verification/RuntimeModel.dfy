/** The child-process boundary of desktop/src/python-runtime.ts as functions on values.
    Every handler maps the runtime to the runtime after it; `log` collects, in order,
    everything the runtime does to the outside: promises settled, signals sent, timers
    of a shutdown started, children spawned. The class PythonRuntime implements these
    functions; RuntimeSafety and BridgeContract prove what they keep over whole runs. */
module RuntimeModel {
  import opened Wrappers
  import opened Text
  import opened Json

  type Id = string

  /** A spawned process; its stdin pipe may be missing. */
  datatype Child = Child(handle: nat, hasInput: bool)

  datatype State = Idle | Starting | Ready | Stopping | Stopped | Failed

  datatype Reason =
    | RequestTimeout | MalformedResponse | ProcessExit | ProcessError | InputFailed | ShutdownTimeout
    | BridgeError(kind: string, message: string)

  datatype Outcome = Resolved(value: Json) | Rejected(reason: Reason)

  datatype Signal = SigTerm | SigKill

  datatype Effect =
    | Spawned(child: Child)
    | CloseHandled(child: Child)
    | Accepted(id: Id)
    | Settled(id: Id, outcome: Outcome)
    | Handed(line: string)
    | Notified(state: State)
    | Delivered(event: Json)
    | InputEnded(child: Child)
    | Sent(child: Child, signal: Signal)
    | WindowOpened
    | ShutdownBegan(child: Child)
    | ShutdownEnded(child: Child, ok: bool)

  /** Where the asynchronous shutdownInternal stands; each Await is one suspension point.
      Done: it has settled, and its caller has not yet cleared `shutdownPromise`. */
  datatype Frame =
    | NoFrame
    | AwaitRequest(child: Child, id: Option<Id>)
    | AwaitExit(child: Child, window: nat, waitOn: Option<Child>, terminateAccepted: bool, killAccepted: bool)
    | Done

  // ----- what can be seen from outside -----

  /** One shutdownInternal, as seen from outside. `reaped`: the close event of its child
      had been handled when it settled. */
  datatype Attempt = Attempt(child: Child, signals: seq<(Child, Signal)>, windows: nat, ok: bool, reaped: bool)

  datatype Hist = Hist(
    spawned: set<Child>,
    closed: set<Child>,
    accepted: set<Id>,
    settled: multiset<Id>,
    expired: set<Id>,
    handed: seq<string>,
    run: Option<Attempt>,
    ended: seq<Attempt>,
    overlapped: bool,
    stray: bool)

  function Observe(h: Hist, e: Effect): Hist {
    match e
    case Spawned(c) => h.(spawned := h.spawned + {c})
    case CloseHandled(c) => h.(closed := h.closed + {c})
    case Accepted(id) => h.(accepted := h.accepted + {id})
    case Settled(id, o) =>
      h.(settled := h.settled + multiset{id},
         expired := if o == Rejected(RequestTimeout) then h.expired + {id} else h.expired)
    case Handed(line) => h.(handed := h.handed + [line])
    case Sent(c, s) =>
      if h.run.Some? then h.(run := Some(h.run.value.(signals := h.run.value.signals + [(c, s)])))
      else h.(stray := true)
    case WindowOpened =>
      if h.run.Some? then h.(run := Some(h.run.value.(windows := h.run.value.windows + 1))) else h.(stray := true)
    case ShutdownBegan(c) =>
      h.(run := Some(Attempt(c, [], 0, false, false)), overlapped := h.overlapped || h.run.Some?)
    case ShutdownEnded(c, ok) =>
      if h.run.Some? then
        h.(run := None, ended := h.ended + [h.run.value.(ok := ok, reaped := h.run.value.child in h.closed)])
      else h.(stray := true)
    case _ => h
  }

  const Nothing := Hist({}, {}, {}, multiset{}, {}, [], None, [], false, false)

  /** `exitPromise` is named by the child whose start created it; `resolved` holds the
      promises already resolved, `resolveExit` the one that still can be. */
  datatype Runtime = Runtime(
    state: State,
    child: Option<Child>,
    pending: seq<Id>,
    timedOut: set<Id>,
    buffer: string,
    closeConfirmed: Option<Child>,
    exitPromise: Option<Child>,
    resolveExit: Option<Child>,
    resolved: set<Child>,
    shutdown: Frame,
    log: seq<Effect>,
    seen: Hist)

  const Init := Runtime(Idle, None, [], {}, "", None, None, None, {}, NoFrame, [], Nothing)

  /** What the outside has seen of the runtime, read off the log as it grows. */
  function H(m: Runtime): Hist {
    m.seen
  }

  function Emit(m: Runtime, e: Effect): Runtime {
    m.(log := m.log + [e], seen := Observe(m.seen, e))
  }

  // ----- promises and failure -----

  function Remove(ids: seq<Id>, id: Id): (r: seq<Id>)
    ensures forall x :: x in r <==> x in ids && x != id
  {
    if ids == [] then [] else if ids[0] == id then Remove(ids[1..], id) else [ids[0]] + Remove(ids[1..], id)
  }

  function MarkFailed(m: Runtime): Runtime {
    if m.state.Failed? then m else Emit(m.(state := Failed), Notified(Failed))
  }

  /** resolvePending and rejectPending. */
  function Settle(m: Runtime, id: Id, o: Outcome): Runtime {
    if id in m.pending then Emit(m.(pending := Remove(m.pending, id)), Settled(id, o)) else m
  }

  lemma {:induction false} RemoveShorter(ids: seq<Id>, id: Id)
    ensures |Remove(ids, id)| <= |ids|
    ensures id in ids ==> |Remove(ids, id)| < |ids|
  {
    if ids != [] {
      RemoveShorter(ids[1..], id);
    }
  }

  /** The loop of rejectAll: in insertion order, each entry leaves the map as it is rejected. */
  function RejectAll(m: Runtime, why: Reason): Runtime
    decreases |m.pending|
  {
    if m.pending == [] then m.(timedOut := {})
    else
      RemoveShorter(m.pending, m.pending[0]);
      RejectAll(Settle(m, m.pending[0], Rejected(why)), why)
  }

  function FailMalformed(m: Runtime): Runtime {
    RejectAll(MarkFailed(m), MalformedResponse)
  }

  // ----- one line of the bridge -----

  datatype Message =
    | Bad
    | AgentEvent(event: Json)
    | StateLine(state: State)
    | Answer(id: Id, outcome: Outcome)

  function StateNamed(s: string): Option<State> {
    if s == "ready" then Some(Ready) else if s == "stopping" then Some(Stopping)
    else if s == "stopped" then Some(Stopped) else if s == "failed" then Some(Failed) else None
  }

  predicate IsError(j: Option<Json>) {
    j.Some? && j.value.Obj? && StringField(j.value, "kind").Some? && StringField(j.value, "message").Some?
  }

  /** The shape checks of consumeLine, on the parsed line. */
  function Classify(j: Json): Message {
    if !IsObject(j) || StringField(j, "type").None? then Bad
    else
      var t := StringField(j, "type").value;
      if t == "agent_event" then
        var e := Field(j, "event");
        if !OnlyKeys(j, {"type", "event"}) || e.None? || !e.value.Obj? || StringField(e.value, "type").None?
           || StringField(e.value, "type").value == "" then Bad
        else AgentEvent(e.value)
      else if t == "runtime_state" then
        var s := StringField(j, "state");
        if !OnlyKeys(j, {"type", "state", "error"}) || s.None? || StateNamed(s.value).None?
           || (Field(j, "error").Some? && !IsError(Field(j, "error"))) then Bad
        else StateLine(StateNamed(s.value).value)
      else
        var id := StringField(j, "id");
        if t != "response" || id.None? then Bad
        else
          match Field(j, "ok")
          case Some(Bool(ok)) =>
            if ok then
              if !OnlyKeys(j, {"type", "id", "ok", "result"}) || Field(j, "result").None? then Bad
              else Answer(id.value, Resolved(Field(j, "result").value))
            else if !OnlyKeys(j, {"type", "id", "ok", "error"}) || !IsError(Field(j, "error")) then Bad
            else
              var e := Field(j, "error").value;
              Answer(id.value, Rejected(BridgeError(StringField(e, "kind").value, StringField(e, "message").value)))
          case _ => Bad
  }

  /** `parse` is JSON.parse, None where it throws. */
  type Parser = string -> Option<Json>

  function Read(parse: Parser, line: string): Message {
    if IsBlank(line) then Bad
    else match parse(line)
      case None => Bad
      case Some(j) => Classify(j)
  }

  function ConsumeMessage(m: Runtime, message: Message): Runtime {
    match message
    case Bad => FailMalformed(m)
    case AgentEvent(e) => Emit(m, Delivered(e))
    case StateLine(s) =>
      var state := if s.Failed? then Failed
                   else if s.Stopped? then Stopped
                   else if s.Ready? && m.state.Starting? then Ready
                   else m.state;
      Emit(m.(state := state), Notified(s))
    case Answer(id, outcome) =>
      if id in m.timedOut then m.(timedOut := m.timedOut - {id})
      else if id in m.pending then Settle(m, id, outcome)
      else FailMalformed(m)
  }

  function ConsumeLine(parse: Parser, m: Runtime, line: string): Runtime {
    ConsumeMessage(Emit(m, Handed(line)), Read(parse, line))
  }

  lemma {:induction false} RejectAllKeepsBuffer(m: Runtime, why: Reason)
    ensures RejectAll(m, why).buffer == m.buffer
    decreases |m.pending|
  {
    if m.pending != [] {
      RemoveShorter(m.pending, m.pending[0]);
      RejectAllKeepsBuffer(Settle(m, m.pending[0], Rejected(why)), why);
    }
  }

  lemma ConsumeLineKeepsBuffer(parse: Parser, m: Runtime, line: string)
    ensures ConsumeLine(parse, m, line).buffer == m.buffer
  {
    RejectAllKeepsBuffer(MarkFailed(Emit(m, Handed(line))), MalformedResponse);
  }

  /** The draining loop of consumeStdout. */
  function Drain(parse: Parser, m: Runtime): Runtime
    decreases |m.buffer|
  {
    var newline := IndexOf(m.buffer, '\n');
    if newline < 0 then m
    else
      var line := StripCR(m.buffer[..newline]);
      var m1 := m.(buffer := m.buffer[newline + 1..]);
      ConsumeLineKeepsBuffer(parse, m1, line);
      Drain(parse, ConsumeLine(parse, m1, line))
  }

  function ConsumeStdout(parse: Parser, m: Runtime, chunk: string): Runtime {
    Drain(parse, m.(buffer := m.buffer + chunk))
  }

  /** `tail` is what the decoder still held back. */
  function Flush(parse: Parser, m: Runtime, tail: string): Runtime {
    var b := m.buffer + tail;
    var m1 := m.(buffer := b);
    var m2 := if b != "" then ConsumeLine(parse, m1, StripCR(b)) else m1;
    m2.(buffer := "")
  }

  // ----- process events -----

  function Detach(m: Runtime, c: Child): Runtime {
    if m.child != Some(c) then m
    else m.(child := None, exitPromise := None, resolveExit := None, closeConfirmed := None)
  }

  function HandleError(m: Runtime, c: Child): Runtime {
    if m.child != Some(c) then m
    else RejectAll(if m.state.Stopping? then m else MarkFailed(m), ProcessError)
  }

  function HandleExit(m: Runtime, c: Child): Runtime {
    if m.child != Some(c) || m.state.Stopping? then m
    else RejectAll(MarkFailed(m), ProcessExit)
  }

  /** The middle of the close handler: confirmation, and the failure of an unexpected close. */
  function ConfirmClose(m: Runtime, c: Child): Runtime {
    var m1 := Emit(m.(closeConfirmed := Some(c)), CloseHandled(c));
    if m1.state.Stopping? || m1.state.Stopped? then m1 else RejectAll(MarkFailed(m1), ProcessExit)
  }

  /** Its end: the exit promise is resolved; outside a shutdown the child is released. */
  function ReleaseClosed(m: Runtime, c: Child): Runtime {
    var m1 := if m.resolveExit.Some? then m.(resolved := m.resolved + {m.resolveExit.value}, resolveExit := None) else m;
    if m1.state.Stopping? then m1 else Detach(m1, c)
  }

  function HandleClose(parse: Parser, m: Runtime, c: Child, tail: string): Runtime {
    if m.child != Some(c) then m
    else ReleaseClosed(ConfirmClose(Flush(parse, m, tail), c), c)
  }

  // ----- start and request -----

  datatype Spawn = Throws | Spawns(child: Child)

  function Adopt(m: Runtime, c: Child): Runtime {
    Emit(m.(child := Some(c), closeConfirmed := None, exitPromise := Some(c), resolveExit := Some(c), state := Ready),
         Spawned(c))
  }

  function Start(m: Runtime, spawn: Spawn): Runtime {
    if m.state.Ready? || m.state.Starting? || m.state.Stopping? || m.child.Some? then m
    else
      var m1 := m.(state := Starting, buffer := "", timedOut := {});
      match spawn
      case Throws => MarkFailed(m1.(child := None))
      case Spawns(c) => Adopt(m1, c)
  }

  /** A request is accepted when it gets an id and a timer. */
  predicate Accepts(m: Runtime, valid: bool, allowStopping: bool) {
    (m.state.Ready? || m.state.Starting? || (allowStopping && m.state.Stopping?))
    && valid && m.child.Some? && m.child.value.hasInput
  }

  function RequestInternal(m: Runtime, id: Id, valid: bool, allowStopping: bool, writeThrows: bool): Runtime {
    if !Accepts(m, valid, allowStopping) then m
    else
      var m1 := Emit(m.(pending := m.pending + [id]), Accepted(id));
      if writeThrows then Settle(m1, id, Rejected(InputFailed)) else m1
  }

  function WriteFailed(m: Runtime, id: Id): Runtime {
    Settle(m, id, Rejected(InputFailed))
  }

  /** The timer callback. */
  function TimeoutFires(m: Runtime, id: Id): Runtime {
    Emit(m.(pending := Remove(m.pending, id), timedOut := m.timedOut + {id}),
         Settled(id, Rejected(RequestTimeout)))
  }

  // ----- shutdown -----

  /** waitForExit up to its suspension: without a promise or a child it is already over. */
  function EnterWait(m: Runtime, c: Child, window: nat, terminateAccepted: bool, killAccepted: bool): Runtime {
    if m.exitPromise.None? || m.child.None? then
      m.(shutdown := AwaitExit(c, window, None, terminateAccepted, killAccepted))
    else
      Emit(m.(shutdown := AwaitExit(c, window, m.exitPromise, terminateAccepted, killAccepted)), WindowOpened)
  }

  /** From the end of the graceful request to the first wait. */
  function EndInput(m: Runtime, c: Child): Runtime {
    EnterWait(Emit(m, InputEnded(c)), c, 1, false, false)
  }

  /** The graceful request up to its suspension. A refused request is awaited all the same. */
  function AskBridge(m: Runtime, c: Child, id: Id, writeThrows: bool): Runtime {
    if Accepts(m, true, true) then
      Emit(RequestInternal(m, id, true, true, writeThrows).(shutdown := AwaitRequest(c, Some(id))), WindowOpened)
    else m.(shutdown := AwaitRequest(c, None))
  }

  /** closeChild up to the first suspension of shutdownInternal. */
  function CloseChild(m: Runtime, requestBridge: bool, id: Id, writeThrows: bool): Runtime {
    if !m.shutdown.NoFrame? then m
    else if m.child.None? || m.state.Idle? then m.(state := Stopped)
    else
      var c := m.child.value;
      var m1 := Emit(m.(state := Stopping), ShutdownBegan(c));
      if requestBridge then AskBridge(m1, c, id, writeThrows) else EndInput(m1, c)
  }

  function FailShutdown(m: Runtime, c: Child): Runtime {
    Emit(RejectAll(MarkFailed(m), ShutdownTimeout).(shutdown := Done), ShutdownEnded(c, false))
  }

  function CompleteShutdown(m: Runtime, c: Child): Runtime {
    Emit(Detach(RejectAll(m, ShutdownTimeout), c).(state := Stopped, shutdown := Done), ShutdownEnded(c, true))
  }

  function FinishShutdown(m: Runtime, c: Child, exited: bool): Runtime {
    if !exited || (m.child == Some(c) && m.closeConfirmed != Some(c)) then FailShutdown(m, c) else CompleteShutdown(m, c)
  }

  /** One continuation of shutdownInternal. `exited` is what the race answered, `accepted`
      what `kill` returned if it is called. */
  function Resume(m: Runtime, exited: bool, accepted: bool): Runtime {
    match m.shutdown
    case AwaitRequest(c, _) => EndInput(m, c)
    case AwaitExit(c, window, _, terminate, kill) =>
      if !exited && m.child == Some(c) && window == 1 then
        EnterWait(Emit(m, Sent(c, SigTerm)), c, 2, accepted, kill)
      else if !exited && m.child == Some(c) && window == 2 then
        EnterWait(Emit(m, Sent(c, SigKill)), c, 3, terminate, accepted)
      else FinishShutdown(m, c, exited)
    case _ => m
  }

  /** The `finally` of the caller that started the shutdown. */
  function Release(m: Runtime): Runtime {
    if m.shutdown.Done? then m.(shutdown := NoFrame) else m
  }

  // ----- events in any order -----

  datatype Event =
    | OnStart(spawn: Spawn)
    | OnRequest(id: Id, valid: bool, writeThrows: bool)
    | OnWriteFailed(id: Id)
    | OnTimeout(id: Id)
    | OnStdout(chunk: string)
    | OnError(child: Child)
    | OnExit(child: Child)
    | OnClose(child: Child, tail: string)
    | OnShutdown(requestBridge: bool, id: Id, writeThrows: bool)
    | OnResume(exited: bool, accepted: bool)
    | OnRelease

  function Step(parse: Parser, m: Runtime, e: Event): Runtime {
    match e
    case OnStart(spawn) => Start(m, spawn)
    case OnRequest(id, valid, writeThrows) => RequestInternal(m, id, valid, false, writeThrows)
    case OnWriteFailed(id) => WriteFailed(m, id)
    case OnTimeout(id) => TimeoutFires(m, id)
    case OnStdout(chunk) => ConsumeStdout(parse, m, chunk)
    case OnError(c) => HandleError(m, c)
    case OnExit(c) => HandleExit(m, c)
    case OnClose(c, tail) => HandleClose(parse, m, c, tail)
    case OnShutdown(requestBridge, id, writeThrows) => CloseChild(m, requestBridge, id, writeThrows)
    case OnResume(exited, accepted) => Resume(m, exited, accepted)
    case OnRelease => Release(m)
  }

  /** What the surroundings can do: a spawned process and a request id are new, a timer
      fires only while it is set, output and close come from a process not yet closed, a
      continuation runs once what it awaits has settled or its timer has fired. */
  ghost predicate Enabled(m: Runtime, e: Event) {
    match e
    case OnStart(Spawns(c)) => c !in H(m).spawned
    case OnRequest(id, _, _) => id !in H(m).accepted
    case OnShutdown(_, id, _) => id !in H(m).accepted
    case OnTimeout(id) => id in m.pending
    case OnStdout(_) => H(m).spawned - H(m).closed != {}
    case OnClose(c, tail) => c in H(m).spawned && c !in H(m).closed && '\n' !in tail
    case OnResume(exited, _) =>
      (match m.shutdown
       case AwaitRequest(_, id) => id.Some? ==> id.value !in m.pending
       case AwaitExit(_, _, waitOn, _, _) =>
         if exited then waitOn.Some? ==> waitOn.value in m.resolved else waitOn.Some?
       case _ => false)
    case OnRelease => m.shutdown.Done?
    case _ => true
  }

  ghost predicate CanRun(parse: Parser, m: Runtime, events: seq<Event>)
    decreases |events|
  {
    events == [] || (Enabled(m, events[0]) && CanRun(parse, Step(parse, m, events[0]), events[1..]))
  }

  function Exec(parse: Parser, m: Runtime, events: seq<Event>): Runtime
    decreases |events|
  {
    if events == [] then m else Exec(parse, Step(parse, m, events[0]), events[1..])
  }
}
