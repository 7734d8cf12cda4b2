/** The lines a child's output is cut into, over the child's whole life. */
module RuntimeFraming {
  import opened Wrappers
  import opened Text
  import opened RuntimeModel
  import opened RuntimeSafety

  /** The lines of a finished output: its pieces between line feeds, a final empty piece
      dropped, each without one trailing carriage return. */
  function LinesOf(output: string): seq<string> {
    StripAll(if Rest(output) == "" then Complete(output) else Split(output))
  }

  /** What the child has written, over a run. */
  function Output(events: seq<Event>): string {
    if events == [] then ""
    else (if events[0].OnStdout? then events[0].chunk else "") + Output(events[1..])
  }

  /** The owned child is as before. */
  ghost predicate SameChild(m: Runtime, r: Runtime) {
    r.child == m.child && r.closeConfirmed == m.closeConfirmed && H(r).closed == H(m).closed
  }

  /** And no line was handed over, the buffer is untouched. */
  ghost predicate Silent(m: Runtime, r: Runtime) {
    SameChild(m, r) && r.buffer == m.buffer && H(r).handed == H(m).handed
  }

  lemma {:induction false} RejectAllSilent(m: Runtime, why: Reason)
    ensures Silent(m, RejectAll(m, why))
    decreases |m.pending|
  {
    if m.pending != [] {
      var e := Settled(m.pending[0], Rejected(why));
      RemoveShorter(m.pending, m.pending[0]);
      RejectAllSilent(Settle(m, m.pending[0], Rejected(why)), why);
    }
  }

  lemma FailSilent(m: Runtime, why: Reason)
    ensures Silent(m, RejectAll(MarkFailed(m), why)) && Silent(m, RejectAll(m, why)) && Silent(m, MarkFailed(m))
  {
    RejectAllSilent(MarkFailed(m), why);
    RejectAllSilent(m, why);
  }

  lemma ConsumeLineHands(parse: Parser, m: Runtime, line: string)
    ensures var r := ConsumeLine(parse, m, line);
            SameChild(m, r) && r.buffer == m.buffer && H(r).handed == H(m).handed + [line]
  {
    hide RejectAll, MarkFailed, Settle;
    var m1, message := Emit(m, Handed(line)), Read(parse, line);
    hide Read;
    FailSilent(m1, MalformedResponse);
    if message.Answer? {
      SettleSilent(m1, message.id, message.outcome);
    }
  }

  lemma SettleSilent(m: Runtime, id: Id, o: Outcome)
    ensures Silent(m, Settle(m, id, o))
  {
  }

  lemma SeqAssoc<T>(a: seq<T>, b: seq<T>, c: seq<T>)
    ensures a + b + c == a + (b + c)
  {
  }

  /** The draining loop hands over exactly the complete lines and keeps the rest. */
  lemma {:induction false} DrainHands(parse: Parser, m: Runtime)
    ensures var r := Drain(parse, m);
            && SameChild(m, r) && r.buffer == Rest(m.buffer)
            && H(r).handed == H(m).handed + StripAll(Complete(m.buffer))
    decreases |m.buffer|
  {
    hide Split, ConsumeLine, StripCR;
    var newline := IndexOf(m.buffer, '\n');
    CutFirst(m.buffer);
    if newline < 0 {
      assert H(m).handed + [] == H(m).handed;
    } else {
      var head, tail := m.buffer[..newline], m.buffer[newline + 1..];
      var m1 := m.(buffer := tail);
      var line := StripCR(head);
      var m2 := ConsumeLine(parse, m1, line);
      ConsumeLineHands(parse, m1, line);
      DrainHands(parse, m2);
      StripAllCons(head, Complete(tail));
      assert StripAll(Complete(m.buffer)) == [line] + StripAll(Complete(tail));
      SeqAssoc(H(m).handed, [line], StripAll(Complete(tail)));
      assert Drain(parse, m) == Drain(parse, m2);
    }
  }

  lemma ResumeSilent(m: Runtime, exited: bool, accepted: bool)
    requires m.child.Some? && m.closeConfirmed.None?
    ensures Silent(m, Resume(m, exited, accepted))
  {
    hide FinishShutdown, EnterWait;
    if m.shutdown.AwaitRequest? {
      WaitSilent(Emit(m, InputEnded(m.shutdown.child)), m.shutdown.child, 1, false, false);
    } else if m.shutdown.AwaitExit? {
      var c, window, t, k := m.shutdown.child, m.shutdown.window, m.shutdown.terminateAccepted, m.shutdown.killAccepted;
      if !exited && m.child == Some(c) && window == 1 {
        WaitSilent(Emit(m, Sent(c, SigTerm)), c, 2, accepted, k);
      } else if !exited && m.child == Some(c) && window == 2 {
        WaitSilent(Emit(m, Sent(c, SigKill)), c, 3, t, accepted);
      } else {
        FinishSilent(m, c, exited);
      }
    }
  }

  lemma WaitSilent(m: Runtime, c: Child, window: nat, t: bool, k: bool)
    ensures Silent(m, EnterWait(m, c, window, t, k))
  {
  }

  lemma FinishSilent(m: Runtime, c: Child, exited: bool)
    requires m.child.Some? && m.closeConfirmed.None?
    ensures Silent(m, FinishShutdown(m, c, exited))
  {
    if !exited || m.child == Some(c) {
      FailSilent(m, ShutdownTimeout);
    } else {
      RejectAllSilent(m, ShutdownTimeout);
    }
  }

  lemma CloseChildSilent(m: Runtime, requestBridge: bool, id: Id, writeThrows: bool)
    requires m.child.Some? && m.closeConfirmed.None?
    ensures Silent(m, CloseChild(m, requestBridge, id, writeThrows))
  {
    if m.shutdown.NoFrame? && !m.state.Idle? {
      var m1 := Emit(m.(state := Stopping), ShutdownBegan(m.child.value));
      assert Silent(m, m1);
      if requestBridge {
        assert Silent(m1, AskBridge(m1, m.child.value, id, writeThrows));
      } else {
        assert Silent(m1, EndInput(m1, m.child.value));
      }
    }
  }

  /** While the child lives, only its output moves the buffer or hands over lines, and only
      its close event changes the owned child. */
  lemma OthersSilent(parse: Parser, m: Runtime, e: Event)
    requires m.child.Some? && m.closeConfirmed.None? && !e.OnStdout? && !e.OnClose?
    ensures Silent(m, Step(parse, m, e))
  {
    match e
    case OnError(c) => FailSilent(m, ProcessError);
    case OnExit(c) => FailSilent(m, ProcessExit);
    case OnResume(exited, accepted) => ResumeSilent(m, exited, accepted);
    case OnShutdown(requestBridge, id, writeThrows) => CloseChildSilent(m, requestBridge, id, writeThrows);
    case _ =>
  }

  lemma LineStep(parse: Parser, m: Runtime, start: seq<string>, before: string, e: Event)
    requires m.child.Some? && m.closeConfirmed.None? && !e.OnClose?
    requires m.buffer == Rest(before) && H(m).handed == start + StripAll(Complete(before))
    ensures var r := Step(parse, m, e);
            var now := before + (if e.OnStdout? then e.chunk else "");
            SameChild(m, r) && r.buffer == Rest(now) && H(r).handed == start + StripAll(Complete(now))
  {
    if e.OnStdout? {
      DrainHands(parse, m.(buffer := m.buffer + e.chunk));
      CompleteStep(before, e.chunk);
      var l, r := Complete(before), Complete(Rest(before) + e.chunk);
      StripAllConcat(l, r);
      SeqAssoc(start, StripAll(l), StripAll(r));
    } else {
      OthersSilent(parse, m, e);
      assert before + "" == before;
    }
  }

  /** From the start of a child to any point before its close: the lines handed over and
      the buffer are a function of the concatenated output, whatever its chunks are and
      whatever happens in between. */
  lemma {:induction false} LinesSoFar(parse: Parser, m: Runtime, c: Child, start: seq<string>, before: string,
                                      events: seq<Event>)
    requires Inv(m) && m.child == Some(c) && c !in H(m).closed
    requires m.buffer == Rest(before) && H(m).handed == start + StripAll(Complete(before))
    requires CanRun(parse, m, events) && forall e | e in events :: !e.OnClose?
    ensures var r := Exec(parse, m, events);
            && Inv(r) && r.child == Some(c) && c !in H(r).closed
            && r.buffer == Rest(before + Output(events))
            && H(r).handed == start + StripAll(Complete(before + Output(events)))
    decreases |events|
  {
    if events == [] {
      assert before + "" == before;
    } else {
      var e := events[0];
      var r := Step(parse, m, e);
      StepKeeps(parse, m, e);
      var chunk := if e.OnStdout? then e.chunk else "";
      LineStep(parse, m, start, before, e);
      SeqAssoc(before, chunk, Output(events[1..]));
      LinesSoFar(parse, r, c, start, before + chunk, events[1..]);
    }
  }

  lemma FlushHands(parse: Parser, m: Runtime, c: Child, tail: string)
    requires m.child == Some(c)
    ensures var b := m.buffer + tail;
            H(HandleClose(parse, m, c, tail)).handed
            == H(m).handed + (if b == "" then [] else [StripCR(b)])
  {
    var b := m.buffer + tail;
    var m1 := m.(buffer := b);
    ConsumeLineHands(parse, m1, StripCR(b));
    var m2 := Flush(parse, m, tail);
    FailSilent(Emit(m2.(closeConfirmed := Some(c)), CloseHandled(c)), ProcessExit);
  }

  /** Over the whole life of a child, from its start to its close event, consumeLine is
      handed exactly the lines of the concatenated output. */
  lemma LifeLines(parse: Parser, m: Runtime, c: Child, events: seq<Event>, tail: string)
    requires Inv(m) && Enabled(m, OnStart(Spawns(c))) && Start(m, Spawns(c)).child == Some(c)
    requires CanRun(parse, Start(m, Spawns(c)), events) && forall e | e in events :: !e.OnClose?
    requires '\n' !in tail
    ensures var s := Start(m, Spawns(c));
            var closed := HandleClose(parse, Exec(parse, s, events), c, tail);
            H(closed).handed == H(s).handed + LinesOf(Output(events) + tail)
  {
    var s := Start(m, Spawns(c));
    assert m.child != Some(c);
    StartKeeps(m, Spawns(c));
    SplitPlain("");
    LinesSoFar(parse, s, c, H(s).handed, "", events);
    var output := Output(events);
    assert "" + output == output;
    var r := Exec(parse, s, events);
    FlushHands(parse, r, c, tail);
    LastPiece(output, tail);
    SeqAssoc(H(s).handed, StripAll(Complete(output)),
             if r.buffer + tail == "" then [] else [StripCR(r.buffer + tail)]);
  }

  lemma LastPiece(output: string, tail: string)
    requires '\n' !in tail
    ensures var b := Rest(output) + tail;
            LinesOf(output + tail) == StripAll(Complete(output)) + (if b == "" then [] else [StripCR(b)])
  {
    hide Split, StripAll, StripCR;
    var b := Rest(output) + tail;
    SplitPlain(b);
    assert Complete(b) == [] && Rest(b) == b;
    CompleteStep(output, tail);
    var done := Complete(output);
    assert Complete(output + tail) == done by {
      assert done + [] == done;
    }
    if b != "" {
      assert Split(output + tail) == done + [b];
      StripAllConcat(done, [b]);
      StripOne(b);
    } else {
      assert StripAll(done) + [] == StripAll(done);
    }
  }

  lemma StripOne(b: string)
    ensures StripAll([b]) == [StripCR(b)]
  {
    assert [b][1..] == [];
  }

  /** One carriage return at the end of a line is taken away, and nothing else. */
  lemma OneReturnIsStripped(line: string)
    ensures StripCR(line + "\r") == line
    ensures line == "" || line[|line| - 1] != '\r' ==> StripCR(line) == line
  {
    assert (line + "\r")[..|line|] == line;
  }
}
