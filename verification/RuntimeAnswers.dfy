/** What each line of the bridge does to the request it answers, told by the shape of the parsed
    line; and with which reason the other requests are rejected. */
module RuntimeAnswers {
  import opened Wrappers
  import opened Text
  import opened Json
  import opened RuntimeModel
  import RuntimeSafety
  import RuntimePending

  // ----- the lines of the protocol -----

  /** `{"type":"response","id":id,"ok":true,"result":result}` */
  predicate IsSuccess(j: Json, id: Id, result: Json) {
    && j == Obj(map["type" := Str("response"), "id" := Str(id), "ok" := Bool(true), "result" := result])
    && IsValue(result)
  }

  /** An error object: it has a kind and a message, and may have more. */
  predicate IsErrorOf(j: Json, kind: string, message: string) {
    && j.Obj? && IsValue(j) && "kind" in j.fields && "message" in j.fields
    && j.fields["kind"] == Str(kind) && j.fields["message"] == Str(message)
  }

  /** `{"type":"response","id":id,"ok":false,"error":{"kind":kind,"message":message,...}}` */
  predicate IsFailure(j: Json, id: Id, kind: string, message: string) {
    && j.Obj? && j.fields.Keys == {"type", "id", "ok", "error"}
    && j.fields["type"] == Str("response") && j.fields["id"] == Str(id) && j.fields["ok"] == Bool(false)
    && IsErrorOf(j.fields["error"], kind, message)
  }

  /** `{"type":"agent_event","event":event}`, the event an object with a type that is not empty. */
  predicate IsEvent(j: Json, event: Json) {
    && j == Obj(map["type" := Str("agent_event"), "event" := event])
    && event.Obj? && IsValue(event) && "type" in event.fields && event.fields["type"].Str? && event.fields["type"].s != ""
  }

  predicate IsStateName(name: string, state: State) {
    || (name == "ready" && state == Ready) || (name == "stopping" && state == Stopping)
    || (name == "stopped" && state == Stopped) || (name == "failed" && state == Failed)
  }

  /** `{"type":"runtime_state","state":name}`, with an error object or without. */
  ghost predicate IsStateLine(j: Json, name: string) {
    && j.Obj? && {"type", "state"} <= j.fields.Keys <= {"type", "state", "error"}
    && j.fields["type"] == Str("runtime_state") && j.fields["state"] == Str(name)
    && name in {"ready", "stopping", "stopped", "failed"}
    && ("error" in j.fields ==> exists kind, message :: IsErrorOf(j.fields["error"], kind, message))
  }

  /** The line is one of these four, for some values. */
  ghost predicate IsProtocol(j: Json) {
    || (exists id, result :: IsSuccess(j, id, result))
    || (exists id, kind, message :: IsFailure(j, id, kind, message))
    || (exists event :: IsEvent(j, event))
    || (exists name :: IsStateLine(j, name))
  }

  predicate Parses(parse: Parser, line: string, j: Json) {
    !IsBlank(line) && parse(line) == Some(j)
  }

  // ----- classifying -----

  lemma SuccessClassified(j: Json, id: Id, result: Json)
    requires IsSuccess(j, id, result)
    ensures Classify(j) == Answer(id, Resolved(result))
  {
    assert j.fields["type"] == Str("response") && j.fields["ok"] == Bool(true) && j.fields["result"] == result;
    assert forall k | k in j.fields :: IsValue(j.fields[k]);
  }

  lemma FailureClassified(j: Json, id: Id, kind: string, message: string)
    requires IsFailure(j, id, kind, message)
    ensures Classify(j) == Answer(id, Rejected(BridgeError(kind, message)))
  {
    assert forall k | k in j.fields :: IsValue(j.fields[k]);
  }

  lemma EventClassified(j: Json, event: Json)
    requires IsEvent(j, event)
    ensures Classify(j) == AgentEvent(event)
  {
    assert j.fields["type"] == Str("agent_event") && j.fields["event"] == event;
    assert forall k | k in j.fields :: IsValue(j.fields[k]);
  }

  lemma StateClassified(j: Json, name: string, state: State)
    requires IsStateLine(j, name) && IsStateName(name, state)
    ensures Classify(j) == StateLine(state)
  {
    if "error" in j.fields {
      var kind, message :| IsErrorOf(j.fields["error"], kind, message);
      assert IsValue(j.fields["error"]);
    }
    assert forall k | k in j.fields :: IsValue(j.fields[k]);
  }

  lemma OnlyProtocol(j: Json)
    requires !Classify(j).Bad?
    ensures IsProtocol(j)
  {
    match Classify(j)
    case AgentEvent(e) =>
      assert j.fields == map["type" := Str("agent_event"), "event" := e];
      assert IsEvent(j, e);
    case StateLine(s) => StateOnly(j);
    case Answer(id, Resolved(result)) =>
      assert j.fields == map["type" := Str("response"), "id" := Str(id), "ok" := Bool(true), "result" := result];
      assert IsSuccess(j, id, result);
    case Answer(id, Rejected(BridgeError(kind, message))) =>
      assert IsFailure(j, id, kind, message);
    case _ =>
  }

  lemma StateOnly(j: Json)
    requires Classify(j).StateLine?
    ensures IsProtocol(j)
  {
    var name := StringField(j, "state").value;
    if "error" in j.fields {
      assert IsErrorOf(j.fields["error"], j.fields["error"].fields["kind"].s, j.fields["error"].fields["message"].s);
    }
    assert IsStateLine(j, name);
  }

  // ----- what the lines do -----

  /** The request `id` is settled with `outcome`, and nothing else happens; if it has timed out, it
      is forgotten; if nobody waits for it, the runtime fails. */
  predicate Settles(m: Runtime, r: Runtime, line: string, id: Id, outcome: Outcome) {
    if id in m.timedOut then
      r.log == m.log + [Handed(line)] && r.pending == m.pending && r.timedOut == m.timedOut - {id} && r.state == m.state
    else if id in m.pending then
      && r.log == m.log + [Handed(line), Settled(id, outcome)] && r.timedOut == m.timedOut && r.state == m.state
      && (forall x | x in r.pending :: x in m.pending && x != id) && (forall x | x in m.pending :: x in r.pending || x == id)
    else r.pending == [] && r.timedOut == {} && r.state.Failed?
  }

  /** A successful response settles its request with exactly its result. */
  lemma SuccessSettles(parse: Parser, m: Runtime, line: string, j: Json, id: Id, result: Json)
    requires Parses(parse, line, j) && IsSuccess(j, id, result)
    ensures Settles(m, ConsumeLine(parse, m, line), line, id, Resolved(result))
  {
    SuccessClassified(j, id, result);
    AnswerSettles(parse, m, line, id, Resolved(result));
  }

  /** A failed one rejects it with exactly its kind and its message. */
  lemma FailureSettles(parse: Parser, m: Runtime, line: string, j: Json, id: Id, kind: string, message: string)
    requires Parses(parse, line, j) && IsFailure(j, id, kind, message)
    ensures Settles(m, ConsumeLine(parse, m, line), line, id, Rejected(BridgeError(kind, message)))
  {
    FailureClassified(j, id, kind, message);
    AnswerSettles(parse, m, line, id, Rejected(BridgeError(kind, message)));
  }

  lemma AnswerSettles(parse: Parser, m: Runtime, line: string, id: Id, outcome: Outcome)
    requires Read(parse, line) == Answer(id, outcome)
    ensures Settles(m, ConsumeLine(parse, m, line), line, id, outcome)
  {
    RuntimePending.LineReleases(parse, m, line);
    hide Read;
    assert m.log + [Handed(line)] + [Settled(id, outcome)] == m.log + [Handed(line), Settled(id, outcome)];
  }

  /** An event is delivered as it is. */
  lemma EventIsDelivered(parse: Parser, m: Runtime, line: string, j: Json, event: Json)
    requires Parses(parse, line, j) && IsEvent(j, event)
    ensures var r := ConsumeLine(parse, m, line);
            && r.log == m.log + [Handed(line), Delivered(event)]
            && r.pending == m.pending && r.timedOut == m.timedOut && r.state == m.state
  {
    EventClassified(j, event);
    assert m.log + [Handed(line)] + [Delivered(event)] == m.log + [Handed(line), Delivered(event)];
  }

  /** "failed" and "stopped" are taken over, "ready" only by a runtime that is starting; the listener
      hears the state that was named. */
  lemma StateIsTaken(parse: Parser, m: Runtime, line: string, j: Json, name: string, state: State)
    requires Parses(parse, line, j) && IsStateLine(j, name) && IsStateName(name, state)
    ensures var r := ConsumeLine(parse, m, line);
            && r.log == m.log + [Handed(line), Notified(state)] && r.pending == m.pending && r.timedOut == m.timedOut
            && (name == "failed" ==> r.state == Failed)
            && (name == "stopped" ==> r.state == Stopped)
            && (name == "ready" ==> r.state == if m.state == Starting then Ready else m.state)
            && (name == "stopping" ==> r.state == m.state)
  {
    StateClassified(j, name, state);
    hide Classify;
    assert m.log + [Handed(line)] + [Notified(state)] == m.log + [Handed(line), Notified(state)];
  }

  function Rejections(ids: seq<Id>, why: Reason): seq<Effect> {
    if ids == [] then [] else [Settled(ids[0], Rejected(why))] + Rejections(ids[1..], why)
  }

  /** The failed state is announced once, and every pending request is rejected, in order. */
  function FailureLog(m: Runtime, why: Reason): seq<Effect> {
    (if m.state.Failed? then [] else [Notified(Failed)]) + Rejections(m.pending, why)
  }

  lemma RemoveFirst(ids: seq<Id>)
    requires ids != [] && RuntimeSafety.NoDup(ids)
    ensures Remove(ids, ids[0]) == ids[1..] && RuntimeSafety.NoDup(ids[1..])
  {
    assert forall x | x in ids[1..] :: x != ids[0];
    NothingRemoved(ids[1..], ids[0]);
  }

  lemma {:induction false} NothingRemoved(ids: seq<Id>, id: Id)
    requires id !in ids
    ensures Remove(ids, id) == ids
    decreases |ids|
  {
    if ids != [] {
      NothingRemoved(ids[1..], id);
    }
  }

  /** Each pending request hears the reason, once, in the order of the requests. */
  lemma {:induction false} RejectAllTells(m: Runtime, why: Reason)
    requires RuntimeSafety.NoDup(m.pending)
    ensures RejectAll(m, why).log == m.log + Rejections(m.pending, why)
    decreases |m.pending|
  {
    if m.pending != [] {
      var r := Settle(m, m.pending[0], Rejected(why));
      RemoveFirst(m.pending);
      RejectAllTells(r, why);
      assert m.log + ([Settled(m.pending[0], Rejected(why))] + Rejections(m.pending[1..], why))
          == m.log + [Settled(m.pending[0], Rejected(why))] + Rejections(m.pending[1..], why);
    }
  }

  lemma FailedTells(m: Runtime, why: Reason)
    requires RuntimeSafety.NoDup(m.pending)
    ensures RejectAll(MarkFailed(m), why).log == m.log + FailureLog(m, why)
  {
    RejectAllTells(MarkFailed(m), why);
    assert m.log + [Notified(Failed)] + Rejections(m.pending, why) == m.log + ([Notified(Failed)] + Rejections(m.pending, why));
    assert m.log + ([] + Rejections(m.pending, why)) == m.log + Rejections(m.pending, why);
  }

  /** Any other line, blank, not JSON, or of another shape: every pending request is rejected as
      malformed, and the runtime fails. */
  lemma OtherLinesFail(parse: Parser, m: Runtime, line: string)
    requires RuntimeSafety.NoDup(m.pending)
    requires forall j | Parses(parse, line, j) :: !IsProtocol(j)
    ensures var r := ConsumeLine(parse, m, line);
            && r.log == m.log + ([Handed(line)] + FailureLog(m, MalformedResponse))
            && r.pending == [] && r.timedOut == {} && r.state.Failed?
  {
    if !Read(parse, line).Bad? {
      assert Parses(parse, line, parse(line).value);
      OnlyProtocol(parse(line).value);
    }
    RuntimePending.LineReleases(parse, m, line);
    hide Read;
    FailedTells(Emit(m, Handed(line)), MalformedResponse);
    assert m.log + [Handed(line)] + FailureLog(m, MalformedResponse) == m.log + ([Handed(line)] + FailureLog(m, MalformedResponse));
  }

  /** The reasons of the other rejections: a timeout, a write that fails, an error of the process,
      its exit or close, and a shutdown that ends. */
  lemma ReasonsAreTold(m: Runtime, id: Id, c: Child)
    requires RuntimeSafety.NoDup(m.pending) && id in m.pending && m.child == Some(c) && !m.state.Stopping?
    ensures TimeoutFires(m, id).log == m.log + [Settled(id, Rejected(RequestTimeout))]
    ensures WriteFailed(m, id).log == m.log + [Settled(id, Rejected(InputFailed))]
    ensures HandleError(m, c).log == m.log + FailureLog(m, ProcessError)
    ensures HandleExit(m, c).log == m.log + FailureLog(m, ProcessExit)
    ensures !m.state.Stopped? ==> ConfirmClose(m, c).log == m.log + ([CloseHandled(c)] + FailureLog(m, ProcessExit))
    ensures FailShutdown(m, c).log == m.log + (FailureLog(m, ShutdownTimeout) + [ShutdownEnded(c, false)])
    ensures CompleteShutdown(m, c).log == m.log + (Rejections(m.pending, ShutdownTimeout) + [ShutdownEnded(c, true)])
  {
    FailedTells(m, ProcessError);
    FailedTells(m, ProcessExit);
    FailedTells(m, ShutdownTimeout);
    FailedTells(Emit(m.(closeConfirmed := Some(c)), CloseHandled(c)), ProcessExit);
    Regrouped(m.log, [CloseHandled(c)], FailureLog(m, ProcessExit));
    RejectAllTells(m, ShutdownTimeout);
    Regrouped(m.log, FailureLog(m, ShutdownTimeout), [ShutdownEnded(c, false)]);
    Regrouped(m.log, Rejections(m.pending, ShutdownTimeout), [ShutdownEnded(c, true)]);
  }

  lemma Regrouped(a: seq<Effect>, b: seq<Effect>, c: seq<Effect>)
    ensures a + b + c == a + (b + c)
  {
  }
}
