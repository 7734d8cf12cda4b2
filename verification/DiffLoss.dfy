/** Exactly when a result that arrives before the kickoff's answer is lost: the buffer of early
    results holds four, and forgets the oldest. */
module DiffLoss {
  import opened Wrappers
  import opened DiffModel
  import opened DiffSafety
  import opened DiffOrder

  /** The call of `c` has not been answered. */
  predicate InFlight(s: Page, c: Context) {
    Waits(s, c) && c.op.None? && FrameOf(s, c)
  }

  predicate DistinctOps(b: Buffer) {
    forall i, j | 0 <= i < j < |b| :: b[i].op != b[j].op
  }

  /** As a map in insertion order: one entry an operation, at most four. */
  predicate BufferOk(b: Buffer) {
    DistinctOps(b) && |b| <= 4
  }

  // ----- the guard that loses a result -----

  /** The buffer is full, the result for `op` is its oldest, and another one comes in. */
  predicate PushesOut(s: Page, c: Context, e: Event, op: Op) {
    Enters(s, c, e) && |s.review.early| >= 4 && s.review.early[0].op == op
  }

  predicate PushedOut(s: Page, c: Context, events: seq<Event>, op: Op)
    requires CanRun(s, events)
    decreases |events|
  {
    events != [] && (PushesOut(s, c, events[0], op) || PushedOut(Step(s, events[0]), c, events[1..], op))
  }

  predicate NoResultOf(events: seq<Event>, op: Op) {
    forall e | e in events && e.OnResult? :: e.r.op != op
  }

  lemma {:induction false} PutOps(b: Buffer, r: Arrival)
    requires DistinctOps(b)
    ensures DistinctOps(Put(b, r)) && |Put(b, r)| <= |b| + 1
    ensures forall x | x in Put(b, r) :: x in b || x == r
    decreases |b|
  {
    PutAdds(b, r);
    if b != [] && b[0].op != r.op {
      PutOps(b[1..], r);
      PutAdds(b[1..], r);
      var t := Put(b[1..], r);
      forall j | 0 <= j < |t| ensures t[j].op != b[0].op {
        assert t[j] in t;
        assert t[j] in b[1..] || t[j] == r;
      }
    }
  }

  lemma {:induction false} RemoveOps(b: Buffer, op: Op)
    requires DistinctOps(b)
    ensures DistinctOps(Remove(b, op)) && |Remove(b, op)| <= |b|
    decreases |b|
  {
    if b != [] {
      RemoveOps(b[1..], op);
      RemoveShrinks(b[1..], op);
      var t := Remove(b[1..], op);
      forall j | 0 <= j < |t| ensures t[j].op != b[0].op {
        assert t[j] in t;
      }
    }
  }

  lemma NextOk(s: Page, c: Context, e: Event)
    requires BufferOk(s.review.early)
    ensures BufferOk(NextEarly(s, c, e))
  {
    var b := s.review.early;
    if Enters(s, c, e) {
      PutOps(if |b| >= 4 then b[1..] else b, e.r);
    } else if Claimed(s, e).Some? {
      RemoveOps(b, Claimed(s, e).value);
    }
  }

  lemma {:induction false} FindIsIn(b: Buffer, op: Op)
    ensures Find(b, op).None? <==> forall x | x in b :: x.op != op
    decreases |b|
  {
    if b != [] {
      assert b == [b[0]] + b[1..];
      FindIsIn(b[1..], op);
    }
  }

  /** What one step does to the result for `op`, which the summary does not claim. */
  lemma NextFinds(s: Page, c: Context, e: Event, op: Op)
    requires BufferOk(s.review.early) && NoResultOf([e], op) && Claimed(s, e) != Some(op)
    ensures Find(NextEarly(s, c, e), op) == if PushesOut(s, c, e, op) then None else Find(s.review.early, op)
  {
    var b := s.review.early;
    assert e in [e];
    if Enters(s, c, e) {
      var kept := if |b| >= 4 then b[1..] else b;
      PutFinds(kept, e.r, op);
      if PushesOut(s, c, e, op) {
        FindIsIn(kept, op);
        assert forall x | x in kept :: x.op != op;
      }
    } else if Claimed(s, e).Some? {
      RemoveFinds(b, Claimed(s, e).value, op);
    }
  }

  /** In a calm run the result stays in the buffer until it is pushed out, and does not come back. */
  lemma {:induction false} RunFinds(s: Page, c: Context, events: seq<Event>, ev: Arrival)
    requires Inv(s) && InFlight(s, c) && BufferOk(s.review.early) && CanRun(s, events) && AllCalm(c, events)
    requires NoResultOf(events, ev.op) && !Named(Run(s, events).acked, ev.op)
    requires Find(s.review.early, ev.op) in {Some(ev), None}
    ensures InFlight(Run(s, events), c)
    ensures Find(Run(s, events).review.early, ev.op) ==
            if Find(s.review.early, ev.op).Some? && !PushedOut(s, c, events, ev.op) then Some(ev) else None
    decreases |events|
  {
    hide Inv, Step, Calm, NextEarly, Claimed, BufferOk, Named, Waits, FrameOf;
    if events != [] {
      var e, t := events[0], Step(s, events[0]);
      assert e in events;
      StepWaits(s, c, e);
      StepKeeps(s, e);
      ClaimedIsNamed(s, e);
      NamesGrowOver(t, events[1..], ev.op);
      NextOk(s, c, e);
      NextFinds(s, c, e, ev.op);
      RunFinds(t, c, events[1..], ev);
      if Find(s.review.early, ev.op).None? {
        NeverThere(s, c, e, ev.op);
      }
    }
  }

  lemma NeverThere(s: Page, c: Context, e: Event, op: Op)
    requires Find(s.review.early, op).None?
    ensures !PushesOut(s, c, e, op)
  {
    FindIsIn(s.review.early, op);
  }

  // ----- counted: how many different operations wait behind it -----

  /** The operations whose results came in later, and which the summary has not claimed. */
  function NextBehind(s: Page, c: Context, e: Event, behind: set<Op>): set<Op> {
    if Enters(s, c, e) then behind + {e.r.op}
    else if Claimed(s, e).Some? then behind - {Claimed(s, e).value}
    else behind
  }

  /** A result comes in while three different operations are behind. */
  predicate Crowded(s: Page, c: Context, events: seq<Event>, behind: set<Op>)
    requires CanRun(s, events)
    decreases |events|
  {
    events != [] &&
    ((Enters(s, c, events[0]) && |behind| >= 3) || Crowded(Step(s, events[0]), c, events[1..], NextBehind(s, c, events[0], behind)))
  }

  function OpsOf(b: Buffer): set<Op> {
    set x | x in b :: x.op
  }

  lemma {:induction false} OpsCount(b: Buffer)
    requires DistinctOps(b)
    ensures |OpsOf(b)| == |b|
    decreases |b|
  {
    if b != [] {
      FirstApart(b);
      hide DistinctOps;
      OpsCount(b[1..]);
    }
  }

  lemma FirstApart(b: Buffer)
    requires b != [] && DistinctOps(b)
    ensures DistinctOps(b[1..]) && b[0].op !in OpsOf(b[1..]) && OpsOf(b) == {b[0].op} + OpsOf(b[1..])
  {
    assert b == [b[0]] + b[1..];
    forall x | x in b[1..] ensures x.op != b[0].op {
      var j :| 0 <= j < |b| - 1 && b[1..][j] == x;
      assert b[j + 1] == x;
    }
  }

  lemma {:induction false} PutBehind(f: Buffer, g: Buffer, r: Arrival)
    requires forall x | x in f :: x.op != r.op
    ensures Put(f + g, r) == f + Put(g, r) && OpsOf(Put(g, r)) == OpsOf(g) + {r.op}
    decreases |f|
  {
    if f == [] {
      assert f + g == g;
      PutOpsOf(g, r);
    } else {
      assert f[0] in f && (f + g)[1..] == f[1..] + g;
      PutBehind(f[1..], g, r);
    }
  }

  lemma {:induction false} PutOpsOf(g: Buffer, r: Arrival)
    ensures OpsOf(Put(g, r)) == OpsOf(g) + {r.op}
    decreases |g|
  {
    if g != [] {
      assert g == [g[0]] + g[1..];
      assert OpsOf(g) == {g[0].op} + OpsOf(g[1..]);
      if g[0].op == r.op {
        assert OpsOf(Put(g, r)) == {r.op} + OpsOf(g[1..]);
      } else {
        PutOpsOf(g[1..], r);
        assert OpsOf(Put(g, r)) == {g[0].op} + OpsOf(Put(g[1..], r));
      }
    }
  }

  lemma {:induction false} RemoveBoth(f: Buffer, g: Buffer, op: Op)
    ensures Remove(f + g, op) == Remove(f, op) + Remove(g, op) && OpsOf(Remove(g, op)) == OpsOf(g) - {op}
    decreases |f|
  {
    if f == [] {
      assert f + g == g;
      RemoveOpsOf(g, op);
    } else {
      assert (f + g)[1..] == f[1..] + g;
      RemoveBoth(f[1..], g, op);
    }
  }

  lemma {:induction false} RemoveOpsOf(g: Buffer, op: Op)
    ensures OpsOf(Remove(g, op)) == OpsOf(g) - {op}
    decreases |g|
  {
    if g != [] {
      assert g == [g[0]] + g[1..];
      RemoveOpsOf(g[1..], op);
      assert OpsOf(g) == {g[0].op} + OpsOf(g[1..]);
      if g[0].op != op {
        assert OpsOf(Remove(g, op)) == {g[0].op} + OpsOf(Remove(g[1..], op));
      }
    }
  }

  /** The buffer: what came before the result, the result, what came after it. */
  predicate Parts(s: Page, f: Buffer, ev: Arrival, g: Buffer, events: seq<Event>) {
    s.review.early == f + [ev] + g && BufferOk(s.review.early) && forall x | x in f :: NoResultOf(events, x.op)
  }

  /** One step that does not push the result out. */
  lemma PartsNext(s: Page, c: Context, e: Event, f: Buffer, ev: Arrival, g: Buffer, rest: seq<Event>)
      returns (f': Buffer, g': Buffer)
    requires Parts(s, f, ev, g, [e] + rest) && NoResultOf([e], ev.op) && Claimed(s, e) != Some(ev.op)
    requires !PushesOut(s, c, e, ev.op)
    ensures NextEarly(s, c, e) == f' + [ev] + g' && OpsOf(g') == NextBehind(s, c, e, OpsOf(g))
    ensures forall x | x in f' :: NoResultOf(rest, x.op)
  {
    assert e in [e] && e in [e] + rest && forall x | x in rest :: x in [e] + rest;
    var b := s.review.early;
    f', g' := f, g;
    if Enters(s, c, e) {
      if |b| >= 4 {
        assert b[|f|] == ev;
        f' := f[1..];
        assert b[1..] == f' + [ev] + g;
      }
      g' := Put(g, e.r);
      PutBehind(f' + [ev], g, e.r);
    } else if Claimed(s, e).Some? {
      var op := Claimed(s, e).value;
      f', g' := Remove(f, op), Remove(g, op);
      RemoveShrinks(f, op);
      RemoveBoth(f + [ev], g, op);
      RemoveBoth(f, [ev], op);
      assert Remove([ev], op) == [ev];
    }
  }

  lemma BackIsDistinct(f: Buffer, ev: Arrival, g: Buffer)
    requires DistinctOps(f + [ev] + g)
    ensures DistinctOps(g)
  {
    var b := f + [ev] + g;
    assert forall j | 0 <= j < |g| :: g[j] == b[|f| + 1 + j];
  }

  lemma CrowdedNow(s: Page, c: Context, e: Event, f: Buffer, ev: Arrival, g: Buffer)
    requires s.review.early == f + [ev] + g && BufferOk(s.review.early)
    ensures PushesOut(s, c, e, ev.op) <==> Enters(s, c, e) && |OpsOf(g)| >= 3
  {
    var b := s.review.early;
    BackIsDistinct(f, ev, g);
    OpsCount(g);
    assert b[|f|] == ev;
    hide Enters, OpsOf;
    if |b| >= 4 && b[0].op == ev.op {
      assert |f| == 0;
    }
  }

  lemma {:induction false} PushedOutIsCrowded(s: Page, c: Context, events: seq<Event>, f: Buffer, ev: Arrival, g: Buffer)
    requires Inv(s) && InFlight(s, c) && CanRun(s, events) && AllCalm(c, events) && Parts(s, f, ev, g, events)
    requires NoResultOf(events, ev.op) && !Named(Run(s, events).acked, ev.op)
    ensures PushedOut(s, c, events, ev.op) <==> Crowded(s, c, events, OpsOf(g))
    decreases |events|
  {
    hide Inv, Step, Calm, NextEarly, Claimed, BufferOk, Named, Waits, FrameOf, PushesOut, Enters, NextBehind;
    if events != [] {
      var e, t := events[0], Step(s, events[0]);
      assert events == [e] + events[1..] && e in events;
      CrowdedNow(s, c, e, f, ev, g);
      StepWaits(s, c, e);
      StepKeeps(s, e);
      ClaimedIsNamed(s, e);
      NamesGrowOver(t, events[1..], ev.op);
      NextOk(s, c, e);
      if !PushesOut(s, c, e, ev.op) {
        var f', g' := PartsNext(s, c, e, f, ev, g, events[1..]);
        PushedOutIsCrowded(t, c, events[1..], f', ev, g');
      }
    }
  }

  // ----- results one after another -----

  function KeepAll(b: Buffer, rs: seq<Arrival>): Buffer
    decreases |rs|
  {
    if rs == [] then b else KeepAll(Keep(b, rs[0]), rs[1..])
  }

  function LastFour(rs: seq<Arrival>): seq<Arrival> {
    if |rs| <= 4 then rs else rs[|rs| - 4..]
  }

  lemma {:induction false} PutNew(b: Buffer, r: Arrival)
    requires forall x | x in b :: x.op != r.op
    ensures Put(b, r) == b + [r]
    decreases |b|
  {
    if b != [] {
      PutNew(b[1..], r);
    }
  }

  /** Of results for different operations, the buffer holds the last four. */
  lemma {:induction false} KeepsLastFour(done: seq<Arrival>, rs: seq<Arrival>)
    requires DistinctOps(done + rs)
    ensures KeepAll(LastFour(done), rs) == LastFour(done + rs)
    decreases |rs|
  {
    hide LastFour, DistinctOps, Keep;
    if rs == [] {
      assert done + rs == done;
    } else {
      var next := done + [rs[0]];
      assert next + rs[1..] == done + rs;
      KeepsNext(done, rs[0], rs[1..]);
      KeepsLastFour(next, rs[1..]);
    }
  }

  lemma KeepsNext(done: seq<Arrival>, r: Arrival, rest: seq<Arrival>)
    requires DistinctOps(done + [r] + rest)
    ensures Keep(LastFour(done), r) == LastFour(done + [r])
  {
    NewOp(done, r, rest);
    var b := LastFour(done);
    var kept := if |b| >= 4 then b[1..] else b;
    assert forall x | x in kept :: x in done;
    hide DistinctOps, LastFour;
    PutNew(kept, r);
    LastFourNext(done, r);
  }

  lemma NewOp(done: seq<Arrival>, r: Arrival, rest: seq<Arrival>)
    requires DistinctOps(done + [r] + rest)
    ensures forall x | x in done :: x.op != r.op
  {
    var all := done + [r] + rest;
    assert all[|done|] == r;
    forall x | x in done ensures x.op != r.op {
      var i :| 0 <= i < |done| && done[i] == x;
      assert all[i] == x;
    }
  }

  lemma LastFourNext(done: seq<Arrival>, r: Arrival)
    ensures var b := LastFour(done); (if |b| >= 4 then b[1..] else b) + [r] == LastFour(done + [r])
  {
  }

  // ----- from the kickoff to its answer -----

  predicate CameIn(b: Buffer, events: seq<Event>) {
    forall x | x in b :: OnResult(x) in events
  }

  /** The buffer of a calm run holds results of this run. */
  lemma {:induction false} RunInFlight(s: Page, c: Context, events: seq<Event>, all: seq<Event>)
    requires Inv(s) && InFlight(s, c) && BufferOk(s.review.early) && CameIn(s.review.early, all)
    requires CanRun(s, events) && AllCalm(c, events) && forall e | e in events :: e in all
    ensures var t := Run(s, events); Inv(t) && InFlight(t, c) && BufferOk(t.review.early) && CameIn(t.review.early, all)
    decreases |events|
  {
    hide Inv, Step, Calm, NextEarly, BufferOk, Waits, FrameOf, CameIn;
    if events != [] {
      var e := events[0];
      assert e in events;
      StepWaits(s, c, e);
      StepKeeps(s, e);
      NextOk(s, c, e);
      NextCameIn(s, c, e, all);
      RunInFlight(Step(s, e), c, events[1..], all);
    }
  }

  lemma NextCameIn(s: Page, c: Context, e: Event, all: seq<Event>)
    requires CameIn(s.review.early, all) && e in all
    ensures CameIn(NextEarly(s, c, e), all)
  {
    if Enters(s, c, e) {
      KeepAdds(s.review.early, e.r);
    } else if Claimed(s, e).Some? {
      RemoveShrinks(s.review.early, Claimed(s, e).value);
    }
  }

  /** A run from the kickoff to its answer: `before`, the result, `after`. Other calls have not
      been given the operation, and its result does not come again. */
  predicate Between(s: Page, c: Context, before: seq<Event>, ev: Arrival, after: seq<Event>) {
    && Inv(s) && InFlight(s, c) && s.review.early == [] && AllCalm(c, before) && AllCalm(c, after)
    && ev.key == c.owner.key && ev.op != "" && !ev.outcome.OtherState? && NoResultOf(after, ev.op)
    && CanRun(s, before) && CanRun(Receive(Run(s, before), ev), after)
    && !Named(Run(Receive(Run(s, before), ev), after).acked, ev.op)
  }

  lemma KeepFinds(b: Buffer, r: Arrival)
    ensures Find(Keep(b, r), r.op) == Some(r)
  {
    PutFinds(if |b| >= 4 then b[1..] else b, r, r.op);
  }

  /** The result comes in. */
  lemma EvEnters(m: Page, c: Context, ev: Arrival)
    requires Inv(m) && InFlight(m, c) && BufferOk(m.review.early) && ev.key == c.owner.key && ev.op != ""
    requires !Named(Receive(m, ev).acked, ev.op)
    ensures var t := Receive(m, ev);
            && Inv(t) && InFlight(t, c) && BufferOk(t.review.early) && t.review.early == Keep(m.review.early, ev)
            && Find(t.review.early, ev.op) == Some(ev)
  {
    hide Inv, BufferOk, Receive, Waits, Keep, Calm, FrameOf;
    var e := OnResult(ev);
    assert Enabled(m, e) && Step(m, e) == Receive(m, ev);
    assert Calm(c, e) by { CalmResult(c, ev); }
    StepWaits(m, c, e);
    StepKeeps(m, e);
    NextOk(m, c, e);
    ClaimedIsNamed(m, e);
    KeepFinds(m.review.early, ev);
  }

  lemma CalmResult(c: Context, r: Arrival)
    ensures Calm(c, OnResult(r))
  {
  }

  lemma ArrivesBefore(s: Page, c: Context, before: seq<Event>, ev: Arrival, after: seq<Event>)
    requires Between(s, c, before, ev, after)
    ensures var m, t := Run(s, before), Receive(Run(s, before), ev);
            && Inv(t) && InFlight(t, c) && BufferOk(t.review.early) && Find(t.review.early, ev.op) == Some(ev)
            && CameIn(m.review.early, before) && BufferOk(m.review.early) && t.review.early == Keep(m.review.early, ev)
  {
    var m := Run(s, before);
    hide Inv, InFlight, Receive, AllCalm, Keep, Named;
    RunInFlight(s, c, before, before);
    StepKeeps(m, OnResult(ev));
    NamesGrowOver(Receive(m, ev), after, ev.op);
    EvEnters(m, c, ev);
  }

  /** The answer that names the operation of `ev` comes. */
  function Answers(s: Page, c: Context, ev: Arrival): Page
    requires FrameOf(s, c)
  {
    AckReview(s, c.number, Answered(ev.op, c.owner.key, true))
  }

  lemma AnswerShowsFound(s: Page, c: Context, ev: Arrival)
    requires InFlight(s, c) && ev.key == c.owner.key && ev.op != "" && !ev.outcome.OtherState?
    requires Find(s.review.early, ev.op) in {Some(ev), None}
    ensures TabShows(Answers(s, c, ev), c, if Find(s.review.early, ev.op).Some? then ShownFor(ev.outcome) else Reviewing)
  {
    if Find(s.review.early, ev.op).Some? {
      AnswerShowsBuffered(s, c, ev);
    }
  }

  /** The result of an operation that comes before the answer is lost, and the tab stays under
      review, if and only if at some moment between the two another result came into the full
      buffer whose oldest it was; otherwise the tab shows it. The summary may do anything. */
  lemma LostExactlyWhenPushedOut(s: Page, c: Context, before: seq<Event>, ev: Arrival, after: seq<Event>)
    requires Between(s, c, before, ev, after)
    ensures var t := Receive(Run(s, before), ev);
            && FrameOf(Run(t, after), c)
            && TabShows(Answers(Run(t, after), c, ev), c, if PushedOut(t, c, after, ev.op) then Reviewing else ShownFor(ev.outcome))
  {
    hide Inv, Waits, FrameOf, AllCalm, Receive, Named, BufferOk, Answers, Keep, TabShows;
    ArrivesBefore(s, c, before, ev, after);
    var t := Receive(Run(s, before), ev);
    RunFinds(t, c, after, ev);
    AnswerShowsFound(Run(t, after), c, ev);
  }

  lemma NewParts(m: Page, before: seq<Event>, ev: Arrival, after: seq<Event>) returns (f: Buffer)
    requires CameIn(m.review.early, before) && NoResultOf(before, ev.op) && NoneReturns(before, after)
    requires BufferOk(Keep(m.review.early, ev))
    ensures Keep(m.review.early, ev) == f + [ev] + [] && forall x | x in f :: NoResultOf(after, x.op)
  {
    var b := m.review.early;
    f := if |b| >= 4 then b[1..] else b;
    forall x | x in f ensures x.op != ev.op && NoResultOf(after, x.op) {
      assert x in b;
      assert OnResult(x) in before;
    }
    PutBehind(f, [], ev);
    assert f + [] == f;
  }

  /** No operation that sent a result before sends one after. */
  predicate NoneReturns(before: seq<Event>, after: seq<Event>) {
    forall e | e in before && e.OnResult? :: NoResultOf(after, e.r.op)
  }

  /** Counted from the events: it is lost if and only if a result came in while those of three
      different operations, later than it and not claimed by the summary, were waiting. */
  lemma LostExactlyBeyondFour(s: Page, c: Context, before: seq<Event>, ev: Arrival, after: seq<Event>)
    requires Between(s, c, before, ev, after) && NoneReturns(before, after) && NoResultOf(before, ev.op)
    ensures var t := Receive(Run(s, before), ev);
            && FrameOf(Run(t, after), c)
            && TabShows(Answers(Run(t, after), c, ev), c, if Crowded(t, c, after, {}) then Reviewing else ShownFor(ev.outcome))
  {
    hide Inv, Waits, FrameOf, AllCalm, Receive, Named, Answers, TabShows, Keep, BufferOk;
    LostExactlyWhenPushedOut(s, c, before, ev, after);
    ArrivesBefore(s, c, before, ev, after);
    var t := Receive(Run(s, before), ev);
    var f := NewParts(Run(s, before), before, ev, after);
    assert OpsOf([]) == {};
    PushedOutIsCrowded(t, c, after, f, ev, []);
  }

  // ----- a loss that can be reached -----

  function Results(rs: seq<Arrival>): seq<Event> {
    if rs == [] then [] else [OnResult(rs[0])] + Results(rs[1..])
  }

  predicate SummaryUnnamed(s: Page) {
    s.summary.context.Some? ==> s.summary.context.value.op.None?
  }

  lemma ResultKept(s: Page, c: Context, r: Arrival)
    requires Waits(s, c) && c.op.None? && SummaryUnnamed(s) && r.key == c.owner.key && r.op != ""
    ensures var t := Receive(s, r);
            && Waits(t, c) && SummaryUnnamed(t) && t.acked == s.acked
            && t.review == s.review.(early := Keep(s.review.early, r))
  {
  }

  /** The owner's results, which nobody has been told to expect, go into the buffer one by one. */
  lemma {:induction false} ResultsKept(s: Page, c: Context, rs: seq<Arrival>)
    requires Waits(s, c) && c.op.None? && SummaryUnnamed(s) && forall r | r in rs :: r.key == c.owner.key && r.op != ""
    ensures CanRun(s, Results(rs))
    ensures var t := Run(s, Results(rs));
            Waits(t, c) && t.acked == s.acked && t.review == s.review.(early := KeepAll(s.review.early, rs))
    decreases |rs|
  {
    hide Keep, Waits, SummaryUnnamed, Receive;
    if rs != [] {
      assert rs[0] in rs;
      assert Results(rs)[1..] == Results(rs[1..]);
      ResultKept(s, c, rs[0]);
      ResultsKept(Receive(s, rs[0]), c, rs[1..]);
    }
  }

  /** For every owner: the summary asks, the tab is opened, the result of its operation comes and
      then four others of the same owner; the answer that names the operation finds nothing. */
  lemma LossIsReachable(owner: Owner, key: string, tab: string, ev: Arrival, four: seq<Arrival>)
    requires |four| == 4 && DistinctOps([ev] + four) && forall r | r in [ev] + four :: r.key == owner.key && r.op != ""
    ensures var events := [OnRefresh(key), OnOpen(tab)] + Results([ev] + four);
            var ack := OnAckReview(1, Answered(ev.op, owner.key, true));
            CanRun(Init(owner), events) && Enabled(Run(Init(owner), events), ack)
            && TabShows(Step(Run(Init(owner), events), ack), Context(1, None, owner, tab), Reviewing)
  {
    var s, c := Asking(owner, key, tab), Context(1, None, owner, tab);
    hide Asking, Step, Enabled, Waits, KeepAll, Results, TabShows, SummaryUnnamed, Run, CanRun, Init;
    BothAsk(owner, key, tab);
    ResultsKept(s, c, [ev] + four);
    RunOnwards(owner, key, tab, Results([ev] + four));
    FourKept(ev, four);
    NothingFound(Run(s, Results([ev] + four)), c, ev.op);
  }

  lemma FourKept(ev: Arrival, four: seq<Arrival>)
    requires |four| == 4 && DistinctOps([ev] + four)
    ensures KeepAll([], [ev] + four) == four && Find(four, ev.op).None?
  {
    hide KeepAll, Find;
    assert [] + ([ev] + four) == [ev] + four && LastFour([]) == [] && LastFour([ev] + four) == four;
    NoOther(ev, four);
    hide DistinctOps, LastFour;
    KeepsLastFour([], [ev] + four);
    FindIsIn(four, ev.op);
  }

  function Asking(owner: Owner, key: string, tab: string): Page {
    Open(Refresh(Init(owner), key), tab)
  }

  lemma BothAsk(owner: Owner, key: string, tab: string)
    ensures var s, c := Asking(owner, key, tab), Context(1, None, owner, tab);
            && Waits(s, c) && SummaryUnnamed(s) && s.acked == map[]
            && s.review == Side(Some(c), 1, [], map[1 := Frame(owner, tab, Asked)])
  {
  }

  lemma RunOnwards(owner: Owner, key: string, tab: string, events: seq<Event>)
    requires CanRun(Asking(owner, key, tab), events)
    ensures var all := [OnRefresh(key), OnOpen(tab)] + events;
            CanRun(Init(owner), all) && Run(Init(owner), all) == Run(Asking(owner, key, tab), events)
  {
    var all := [OnRefresh(key), OnOpen(tab)] + events;
    assert all[1..] == [OnOpen(tab)] + events && all[1..][1..] == events;
    assert CanRun(Refresh(Init(owner), key), all[1..]);
    hide Open, Refresh;
  }

  /** The answer comes, and the buffer does not know its operation. */
  lemma NothingFound(s: Page, c: Context, op: Op)
    requires Waits(s, c) && c.op.None? && s.acked == map[] && op != "" && Find(s.review.early, op).None?
    requires s.review.frames == map[c.number := Frame(c.owner, c.target, Asked)]
    ensures var ack := OnAckReview(c.number, Answered(op, c.owner.key, true));
            Enabled(s, ack) && TabShows(Step(s, ack), c, Reviewing)
  {
  }

  lemma NoOther(ev: Arrival, four: seq<Arrival>)
    requires DistinctOps([ev] + four)
    ensures forall x | x in four :: x.op != ev.op
  {
    forall x | x in four ensures x.op != ev.op {
      var j :| 0 <= j < |four| && four[j] == x;
      assert ([ev] + four)[0] == ev && ([ev] + four)[j + 1] == x;
    }
  }
}
