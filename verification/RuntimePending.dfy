/** When the runtime lets go of all requests at once: malformed output, and a process that fails,
    exits or closes. */
module RuntimePending {
  import opened Wrappers
  import opened Text
  import opened RuntimeModel

  /** The line is malformed, or answers a request nobody waits for. */
  predicate Breaks(m: Runtime, message: Message) {
    message.Bad? || (message.Answer? && message.id !in m.timedOut && message.id !in m.pending)
  }

  lemma {:induction false} RejectAllReleases(m: Runtime, why: Reason)
    ensures var r := RejectAll(m, why);
            r.pending == [] && r.timedOut == {} && r.state == m.state && r.child == m.child
    decreases |m.pending|
  {
    if m.pending != [] {
      RemoveShorter(m.pending, m.pending[0]);
      RejectAllReleases(Settle(m, m.pending[0], Rejected(why)), why);
    }
  }

  /** A line that breaks releases all requests and fails the runtime; any other settles at most
      the request it answers. */
  lemma LineReleases(parse: Parser, m: Runtime, line: string)
    ensures var r, message := ConsumeLine(parse, m, line), Read(parse, line);
            if Breaks(m, message) then r.pending == [] && r.timedOut == {} && r.state.Failed?
            else r.timedOut <= m.timedOut
                 && r.pending == (if message.Answer? && message.id !in m.timedOut then Remove(m.pending, message.id) else m.pending)
  {
    RejectAllReleases(MarkFailed(Emit(m, Handed(line))), MalformedResponse);
  }

  /** An unknown answer stays unknown while lines are read. */
  lemma StillBreaks(parse: Parser, m: Runtime, line: string, message: Message)
    requires Breaks(m, message)
    ensures Breaks(ConsumeLine(parse, m, line), message)
  {
    LineReleases(parse, m, line);
  }

  lemma {:induction false} DrainKeepsNone(parse: Parser, m: Runtime)
    requires m.pending == []
    ensures Drain(parse, m).pending == []
    decreases |m.buffer|
  {
    hide ConsumeLine, StripCR;
    var newline := IndexOf(m.buffer, '\n');
    if newline >= 0 {
      var m1, line := m.(buffer := m.buffer[newline + 1..]), StripCR(m.buffer[..newline]);
      LineReleases(parse, m1, line);
      ConsumeLineKeepsBuffer(parse, m1, line);
      DrainKeepsNone(parse, ConsumeLine(parse, m1, line));
    }
  }

  lemma StripAllIn(line: string, lines: seq<string>, head: string, tail: seq<string>)
    requires lines == [head] + tail && line in StripAll(lines)
    ensures line == StripCR(head) || line in StripAll(tail)
  {
    StripAllCons(head, tail);
  }

  /** Wherever the line stands among the complete lines of the buffer. */
  lemma {:induction false} DrainReleases(parse: Parser, m: Runtime, line: string)
    requires line in StripAll(Complete(m.buffer)) && Breaks(m, Read(parse, line))
    ensures Drain(parse, m).pending == []
    decreases |m.buffer|
  {
    hide ConsumeLine, StripCR, Split, Read;
    var newline := IndexOf(m.buffer, '\n');
    CutFirst(m.buffer);
    if newline >= 0 {
      var head, tail := m.buffer[..newline], m.buffer[newline + 1..];
      var m1 := m.(buffer := tail);
      LineReleases(parse, m1, StripCR(head));
      ConsumeLineKeepsBuffer(parse, m1, StripCR(head));
      var m2 := ConsumeLine(parse, m1, StripCR(head));
      StripAllIn(line, Complete(m.buffer), head, Complete(tail));
      if line == StripCR(head) {
        DrainKeepsNone(parse, m2);
      } else {
        StillBreaks(parse, m1, StripCR(head), Read(parse, line));
        DrainReleases(parse, m2, line);
      }
    }
  }

  /** Output with such a line anywhere among its complete lines: malformed, or the answer to an id
      that is neither pending nor timed out. */
  lemma OutputReleases(parse: Parser, m: Runtime, chunk: string, line: string)
    requires line in StripAll(Complete(m.buffer + chunk)) && Breaks(m, Read(parse, line))
    ensures ConsumeStdout(parse, m, chunk).pending == []
  {
    DrainReleases(parse, m.(buffer := m.buffer + chunk), line);
  }

  /** The process fails, or exits outside a shutdown. */
  lemma FailureReleases(m: Runtime, c: Child)
    requires m.child == Some(c)
    ensures HandleError(m, c).pending == []
    ensures !m.state.Stopping? ==> HandleExit(m, c).pending == []
  {
    RejectAllReleases(MarkFailed(m), ProcessExit);
    RejectAllReleases(if m.state.Stopping? then m else MarkFailed(m), ProcessError);
  }

  /** The owned child closes. The requests are released if the last, unfinished line breaks; and
      otherwise exactly outside a shutdown, if the bridge has not announced that it stopped. */
  lemma CloseReleases(parse: Parser, m: Runtime, c: Child, tail: string)
    requires m.child == Some(c)
    ensures var b, r := m.buffer + tail, HandleClose(parse, m, c, tail);
            && (b != "" && Breaks(m, Read(parse, StripCR(b))) ==> r.pending == [])
            && r.pending == (if Flush(parse, m, tail).state in {Stopping, Stopped} then Flush(parse, m, tail).pending else [])
            && (m.state !in {Stopping, Stopped} && (b == "" || Read(parse, StripCR(b)) != StateLine(Stopped)) ==> r.pending == [])
  {
    hide StripCR, Read;
    var b := m.buffer + tail;
    var f := Flush(parse, m, tail);
    if b != "" {
      LineReleases(parse, m.(buffer := b), StripCR(b));
      FlushedState(parse, m.(buffer := b), StripCR(b));
    }
    hide ConsumeLine;
    RejectAllReleases(MarkFailed(Emit(f.(closeConfirmed := Some(c)), CloseHandled(c))), ProcessExit);
  }

  lemma FlushedState(parse: Parser, m: Runtime, line: string)
    ensures var r := ConsumeLine(parse, m, line);
            m.state !in {Stopping, Stopped} && Read(parse, line) != StateLine(Stopped) ==> r.state !in {Stopping, Stopped}
  {
    LineReleases(parse, m, line);
  }

  /** Whatever the state: nothing stays pending after malformed output, after the process failed or
      exited outside a shutdown, and after a close outside a shutdown that was not announced. */
  lemma PendingReleased(parse: Parser, m: Runtime, c: Child, line: string, chunk: string, tail: string)
    requires m.child == Some(c)
    ensures Breaks(m, Read(parse, line)) ==> ConsumeLine(parse, m, line).pending == []
    ensures Breaks(m, Read(parse, line)) && line in StripAll(Complete(m.buffer + chunk)) ==> ConsumeStdout(parse, m, chunk).pending == []
    ensures Breaks(m, Read(parse, line)) && m.buffer + tail != "" && line == StripCR(m.buffer + tail) ==>
              HandleClose(parse, m, c, tail).pending == []
    ensures HandleError(m, c).pending == []
    ensures !m.state.Stopping? ==> HandleExit(m, c).pending == []
    ensures Flush(parse, m, tail).state !in {Stopping, Stopped} ==> HandleClose(parse, m, c, tail).pending == []
  {
    hide ConsumeLine, ConsumeStdout, HandleClose, HandleError, HandleExit, Flush, StripCR, Read, StripAll;
    LineReleases(parse, m, line);
    if Breaks(m, Read(parse, line)) && line in StripAll(Complete(m.buffer + chunk)) {
      OutputReleases(parse, m, chunk, line);
    }
    FailureReleases(m, c);
    CloseReleases(parse, m, c, tail);
  }
}
