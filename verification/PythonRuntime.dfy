/** The runtime object itself: its fields, updated in place by its event handlers. Every
    handler is proved to have the effect of the function of RuntimeModel named beside it, and
    every event handler to keep the invariant of all runs: one live child, each request settled
    once, one shutdown at a time. The run theorems of RuntimeSafety, RuntimeFraming, RuntimePending
    and BridgeContract speak about it. */
module PythonRuntimeClass {
  import opened Wrappers
  import opened Text
  import M = RuntimeModel
  import RuntimeSafety

  class PythonRuntime {
    const parse: M.Parser
    var state: M.State
    var child: Option<M.Child>
    var pending: seq<M.Id>
    var timedOutRequestIds: set<M.Id>
    var outputBuffer: string
    var closeConfirmedChild: Option<M.Child>
    var exitPromise: Option<M.Child>
    var resolveExit: Option<M.Child>
    var resolved: set<M.Child>
    var shutdownFrame: M.Frame
    var log: seq<M.Effect>
    ghost var seen: M.Hist

    ghost function Abs(): M.Runtime
      reads this
    {
      M.Runtime(state, child, pending, timedOutRequestIds, outputBuffer, closeConfirmedChild, exitPromise,
                resolveExit, resolved, shutdownFrame, log, seen)
    }

    /** The invariant of all runs: the ledger of requests, ownership and shutdown; and at most one
        live child, the owned one. */
    ghost predicate Valid()
      reads this
    {
      RuntimeSafety.Kept(Abs())
    }

    /** The event can happen now. */
    ghost predicate Can(e: M.Event)
      reads this
    {
      M.Enabled(Abs(), e)
    }

    constructor (parse: M.Parser)
      ensures Valid() && Abs() == M.Init && this.parse == parse
    {
      this.parse := parse;
      state, child, pending, timedOutRequestIds, outputBuffer := M.Idle, None, [], {}, "";
      closeConfirmedChild, exitPromise, resolveExit, resolved := None, None, None, {};
      shutdownFrame, log, seen := M.NoFrame, [], M.Nothing;
    }

    method Emit(e: M.Effect)
      modifies this`log, this`seen
      ensures Abs() == M.Emit(old(Abs()), e)
    {
      log := log + [e];
      seen := M.Observe(seen, e);
    }

    method MarkFailed()
      modifies this`state, this`log, this`seen
      ensures Abs() == M.MarkFailed(old(Abs()))
    {
      if state.Failed? {
        return;
      }
      state := M.Failed;
      Emit(M.Notified(M.Failed));
    }

    /** resolvePending, rejectPending */
    method SettlePending(id: M.Id, outcome: M.Outcome)
      modifies this`pending, this`log, this`seen
      ensures Abs() == M.Settle(old(Abs()), id, outcome)
    {
      if id !in pending {
        return;
      }
      pending := M.Remove(pending, id);
      Emit(M.Settled(id, outcome));
    }

    method RejectAll(reason: M.Reason)
      modifies this`pending, this`timedOutRequestIds, this`log, this`seen
      ensures Abs() == M.RejectAll(old(Abs()), reason)
    {
      while pending != []
        invariant M.RejectAll(Abs(), reason) == M.RejectAll(old(Abs()), reason)
        decreases |pending|
      {
        M.RemoveShorter(pending, pending[0]);
        SettlePending(pending[0], M.Rejected(reason));
      }
      timedOutRequestIds := {};
    }

    method FailMalformedOutput()
      modifies this`state, this`pending, this`timedOutRequestIds, this`log, this`seen
      ensures Abs() == M.FailMalformed(old(Abs()))
    {
      MarkFailed();
      RejectAll(M.MalformedResponse);
    }

    method ConsumeLine(line: string)
      modifies this`state, this`pending, this`timedOutRequestIds, this`log, this`seen
      ensures Abs() == M.ConsumeLine(parse, old(Abs()), line)
    {
      Emit(M.Handed(line));
      match M.Read(parse, line)
      case Bad =>
        FailMalformedOutput();
      case AgentEvent(event) =>
        Emit(M.Delivered(event));
      case StateLine(s) =>
        if s.Failed? {
          state := M.Failed;
        } else if s.Stopped? {
          state := M.Stopped;
        } else if s.Ready? && state.Starting? {
          state := M.Ready;
        }
        Emit(M.Notified(s));
      case Answer(id, outcome) =>
        var timedOut := id in timedOutRequestIds;
        if id !in pending && !timedOut {
          FailMalformedOutput();
        } else if timedOut {
          timedOutRequestIds := timedOutRequestIds - {id};
        } else {
          SettlePending(id, outcome);
        }
    }

    /** The body of the draining loop: cut off the first line and consume it. */
    method ConsumeFirstLine(newline: nat)
      requires newline == IndexOf(outputBuffer, '\n')
      modifies this`state, this`pending, this`timedOutRequestIds, this`outputBuffer, this`log, this`seen
      ensures outputBuffer == old(outputBuffer)[newline + 1..]
      ensures Abs() == M.ConsumeLine(parse, old(Abs()).(buffer := outputBuffer), StripCR(old(outputBuffer)[..newline]))
    {
      var line := StripCR(outputBuffer[..newline]);
      outputBuffer := outputBuffer[newline + 1..];
      M.ConsumeLineKeepsBuffer(parse, Abs(), line);
      ConsumeLine(line);
    }

    /** Consumes all complete lines of the buffer. */
    method Drain()
      modifies this`state, this`pending, this`timedOutRequestIds, this`outputBuffer, this`log, this`seen
      ensures Abs() == M.Drain(parse, old(Abs()))
    {
      ghost var end := M.Drain(parse, Abs());
      var newline := IndexOf(outputBuffer, '\n');
      while newline >= 0
        invariant newline == IndexOf(outputBuffer, '\n')
        invariant M.Drain(parse, Abs()) == end
        decreases |outputBuffer|
      {
        ConsumeFirstLine(newline);
        newline := IndexOf(outputBuffer, '\n');
      }
    }

    method ConsumeStdout(chunk: string)
      requires Valid() && Can(M.OnStdout(chunk))
      modifies this`state, this`pending, this`timedOutRequestIds, this`outputBuffer, this`log, this`seen
      ensures Valid()
      ensures Abs() == M.ConsumeStdout(parse, old(Abs()), chunk)
    {
      RuntimeSafety.AfterStdout(parse, Abs(), chunk);
      hide RuntimeSafety.Kept, M.Enabled, M.Drain;
      outputBuffer := outputBuffer + chunk;
      Drain();
    }

    method FlushAndResetTransportBuffers(tail: string)
      modifies this`state, this`pending, this`timedOutRequestIds, this`outputBuffer, this`log, this`seen
      ensures Abs() == M.Flush(parse, old(Abs()), tail)
    {
      outputBuffer := outputBuffer + tail;
      if outputBuffer != "" {
        ConsumeLine(StripCR(outputBuffer));
      }
      outputBuffer := "";
    }

    method HandleProcessError(c: M.Child)
      requires Valid() && Can(M.OnError(c))
      modifies this
      ensures Valid()
      ensures Abs() == M.HandleError(old(Abs()), c)
    {
      RuntimeSafety.AfterError(parse, Abs(), c);
      hide RuntimeSafety.Kept, M.Enabled, M.RejectAll, M.MarkFailed;
      if child != Some(c) {
        return;
      }
      if !state.Stopping? {
        MarkFailed();
      }
      RejectAll(M.ProcessError);
    }

    method HandleProcessExit(c: M.Child)
      requires Valid() && Can(M.OnExit(c))
      modifies this
      ensures Valid()
      ensures Abs() == M.HandleExit(old(Abs()), c)
    {
      RuntimeSafety.AfterExit(parse, Abs(), c);
      hide RuntimeSafety.Kept, M.Enabled, M.RejectAll, M.MarkFailed;
      if child != Some(c) {
        return;
      }
      if !state.Stopping? {
        MarkFailed();
        RejectAll(M.ProcessExit);
      }
    }

    method DetachChild(c: M.Child)
      modifies this`child, this`exitPromise, this`resolveExit, this`closeConfirmedChild
      ensures Abs() == M.Detach(old(Abs()), c)
    {
      if child != Some(c) {
        return;
      }
      child, exitPromise, resolveExit, closeConfirmedChild := None, None, None, None;
    }

    method ConfirmClose(c: M.Child)
      modifies this
      ensures Abs() == M.ConfirmClose(old(Abs()), c)
    {
      closeConfirmedChild := Some(c);
      Emit(M.CloseHandled(c));
      if !state.Stopping? && !state.Stopped? {
        MarkFailed();
        RejectAll(M.ProcessExit);
      }
    }

    method ReleaseClosed(c: M.Child)
      modifies this
      ensures Abs() == M.ReleaseClosed(old(Abs()), c)
    {
      if resolveExit.Some? {
        resolved := resolved + {resolveExit.value};
      }
      resolveExit := None;
      if !state.Stopping? {
        DetachChild(c);
      }
    }

    method HandleProcessClose(c: M.Child, tail: string)
      requires Valid() && Can(M.OnClose(c, tail))
      modifies this
      ensures Valid()
      ensures Abs() == M.HandleClose(parse, old(Abs()), c, tail)
    {
      RuntimeSafety.AfterClose(parse, Abs(), c, tail);
      hide RuntimeSafety.Kept, M.Enabled, M.Flush, M.ConfirmClose, M.ReleaseClosed;
      if child != Some(c) {
        return;
      }
      FlushAndResetTransportBuffers(tail);
      ConfirmClose(c);
      ReleaseClosed(c);
    }

    /** The successful part of start: take ownership of the spawned process. */
    method Adopt(c: M.Child)
      modifies this
      ensures Abs() == M.Adopt(old(Abs()), c)
    {
      child, closeConfirmedChild := Some(c), None;
      exitPromise, resolveExit := Some(c), Some(c);
      state := M.Ready;
      Emit(M.Spawned(c));
    }

    method Start(spawn: M.Spawn)
      requires Valid() && Can(M.OnStart(spawn))
      modifies this
      ensures Valid()
      ensures Abs() == M.Start(old(Abs()), spawn)
    {
      RuntimeSafety.AfterStart(parse, Abs(), spawn);
      hide RuntimeSafety.Kept, M.Enabled, M.Adopt, M.MarkFailed;
      if state.Ready? || state.Starting? || state.Stopping? || child.Some? {
        return;
      }
      state := M.Starting;
      outputBuffer := "";
      timedOutRequestIds := {};
      match spawn
      case Spawns(c) =>
        Adopt(c);
      case Throws =>
        child := None;
        MarkFailed();
    }

    method RequestInternal(id: M.Id, valid: bool, allowStopping: bool, writeThrows: bool) returns (accepted: bool)
      modifies this
      ensures Abs() == M.RequestInternal(old(Abs()), id, valid, allowStopping, writeThrows)
      ensures accepted == M.Accepts(old(Abs()), valid, allowStopping)
    {
      if !state.Ready? && !state.Starting? && !(allowStopping && state.Stopping?) {
        return false;
      }
      if !valid {
        return false;
      }
      if child.None? || !child.value.hasInput {
        return false;
      }
      pending := pending + [id];
      Emit(M.Accepted(id));
      if writeThrows {
        SettlePending(id, M.Rejected(M.InputFailed));
      }
      return true;
    }

    /** The callback of a request's timer. */
    method TimeoutFires(id: M.Id)
      requires Valid() && Can(M.OnTimeout(id))
      modifies this
      ensures Valid()
      ensures Abs() == M.TimeoutFires(old(Abs()), id)
    {
      RuntimeSafety.AfterStep(parse, Abs(), M.OnTimeout(id));
      hide RuntimeSafety.Kept, M.Enabled;
      pending := M.Remove(pending, id);
      timedOutRequestIds := timedOutRequestIds + {id};
      Emit(M.Settled(id, M.Rejected(M.RequestTimeout)));
    }

    method WaitForExit(c: M.Child, window: nat, terminateAccepted: bool, killAccepted: bool)
      modifies this`shutdownFrame, this`log, this`seen
      ensures Abs() == M.EnterWait(old(Abs()), c, window, terminateAccepted, killAccepted)
    {
      if exitPromise.None? || child.None? {
        shutdownFrame := M.AwaitExit(c, window, None, terminateAccepted, killAccepted);
        return;
      }
      shutdownFrame := M.AwaitExit(c, window, exitPromise, terminateAccepted, killAccepted);
      Emit(M.WindowOpened);
    }

    /** shutdownInternal's graceful request, up to its suspension. */
    method AskBridge(c: M.Child, id: M.Id, writeThrows: bool)
      modifies this
      ensures Abs() == M.AskBridge(old(Abs()), c, id, writeThrows)
    {
      var accepted := RequestInternal(id, true, true, writeThrows);
      shutdownFrame := M.AwaitRequest(c, if accepted then Some(id) else None);
      if accepted {
        Emit(M.WindowOpened);
      }
    }

    method CloseChild(requestBridge: bool, id: M.Id, writeThrows: bool)
      requires Valid() && Can(M.OnShutdown(requestBridge, id, writeThrows))
      modifies this
      ensures Valid()
      ensures Abs() == M.CloseChild(old(Abs()), requestBridge, id, writeThrows)
    {
      RuntimeSafety.AfterCloseChild(parse, Abs(), requestBridge, id, writeThrows);
      hide RuntimeSafety.Kept, M.Enabled, M.AskBridge, M.EnterWait;
      if !shutdownFrame.NoFrame? {
        return;
      }
      if child.None? || state.Idle? {
        state := M.Stopped;
        return;
      }
      var c := child.value;
      state := M.Stopping;
      Emit(M.ShutdownBegan(c));
      if requestBridge {
        AskBridge(c, id, writeThrows);
      } else {
        Emit(M.InputEnded(c));
        WaitForExit(c, 1, false, false);
      }
    }

    /** The code of shutdownInternal after a suspension point. */
    method ResumeShutdown(exited: bool, accepted: bool)
      requires Valid() && Can(M.OnResume(exited, accepted))
      modifies this
      ensures Valid()
      ensures Abs() == M.Resume(old(Abs()), exited, accepted)
    {
      RuntimeSafety.AfterResume(parse, Abs(), exited, accepted);
      hide RuntimeSafety.Kept, M.Enabled, M.EnterWait, M.FinishShutdown;
      match shutdownFrame
      case AwaitRequest(c, _) =>
        Emit(M.InputEnded(c));
        WaitForExit(c, 1, false, false);
      case AwaitExit(c, window, _, terminateAccepted, killAccepted) =>
        if !exited && child == Some(c) && window == 1 {
          Emit(M.Sent(c, M.SigTerm));
          WaitForExit(c, 2, accepted, killAccepted);
          return;
        }
        if !exited && child == Some(c) && window == 2 {
          Emit(M.Sent(c, M.SigKill));
          WaitForExit(c, 3, terminateAccepted, accepted);
          return;
        }
        FinishShutdown(c, exited);
      case _ =>
    }

    method FinishShutdown(c: M.Child, exited: bool)
      modifies this
      ensures Abs() == M.FinishShutdown(old(Abs()), c, exited)
    {
      if !exited || (child == Some(c) && closeConfirmedChild != Some(c)) {
        MarkFailed();
        RejectAll(M.ShutdownTimeout);
        shutdownFrame := M.Done;
        Emit(M.ShutdownEnded(c, false));
      } else {
        RejectAll(M.ShutdownTimeout);
        DetachChild(c);
        state := M.Stopped;
        shutdownFrame := M.Done;
        Emit(M.ShutdownEnded(c, true));
      }
    }

    method ReleaseShutdown()
      requires Valid() && Can(M.OnRelease)
      modifies this
      ensures Valid()
      ensures Abs() == M.Release(old(Abs()))
    {
      RuntimeSafety.AfterStep(parse, Abs(), M.OnRelease);
      hide RuntimeSafety.Kept, M.Enabled;
      if shutdownFrame.Done? {
        shutdownFrame := M.NoFrame;
      }
    }

    /** One event, dispatched to its handler. */
    method Handle(e: M.Event)
      requires Valid() && Can(e)
      modifies this
      ensures Valid()
      ensures Abs() == M.Step(parse, old(Abs()), e)
    {
      RuntimeSafety.AfterStep(parse, Abs(), e);
      hide RuntimeSafety.Kept, M.Enabled;
      match e
      case OnStart(spawn) => Start(spawn);
      case OnRequest(id, valid, writeThrows) => var _ := RequestInternal(id, valid, false, writeThrows);
      case OnWriteFailed(id) => SettlePending(id, M.Rejected(M.InputFailed));
      case OnTimeout(id) => TimeoutFires(id);
      case OnStdout(chunk) => ConsumeStdout(chunk);
      case OnError(c) => HandleProcessError(c);
      case OnExit(c) => HandleProcessExit(c);
      case OnClose(c, tail) => HandleProcessClose(c, tail);
      case OnShutdown(requestBridge, id, writeThrows) => CloseChild(requestBridge, id, writeThrows);
      case OnResume(exited, accepted) => ResumeShutdown(exited, accepted);
      case OnRelease => ReleaseShutdown();
    }
  }
}
