/** Whichever of the kickoff's answer and the result event comes first, the review tab ends in
    the event's outcome, as long as not too many results arrive meanwhile. */
module DiffOrder {
  import opened Wrappers
  import opened DiffModel
  import opened DiffSafety

  /** The tab `c.target` was opened by the call of context `c` and shows `shown`. */
  predicate TabShows(s: Page, c: Context, shown: Shown) {
    c.target in s.tabs && s.tabs[c.target] == View(c.owner, c.target, c.number, shown)
  }

  predicate Waits(s: Page, c: Context) {
    s.review.context == Some(c) && s.owner == Some(c.owner) && TabShows(s, c, Reviewing)
  }

  /** What leaves the call of `c` alone: no other diff is opened, the tab is not closed, the
      page's owner stays, and the call's own answer does not come. The summary may do anything,
      and results may arrive. */
  predicate Calm(c: Context, e: Event) {
    match e
    case OnOpen(_) => false
    case OnAckReview(n, _) => n != c.number
    case OnCancelReview => false
    case OnCloseTab(id) => id != c.target
    case OnClosePanel => false
    case OnOwner(_) => false
    case _ => true
  }

  /** How many results with this key arrive. */
  function SameKey(events: seq<Event>, key: string): nat {
    if events == [] then 0
    else (if events[0].OnResult? && events[0].r.key == key then 1 else 0) + SameKey(events[1..], key)
  }

  /** All results for the operation of `ev` are `ev` itself. */
  predicate OnlyResult(events: seq<Event>, ev: Arrival) {
    forall e | e in events && e.OnResult? && e.r.op == ev.op :: e.r == ev
  }

  predicate Named(acked: map<Call, Op>, op: Op) {
    exists c | c in acked :: acked[c] == op
  }

  // ----- buffers -----

  lemma {:induction false} PutFinds(b: Buffer, r: Arrival, op: Op)
    ensures Find(Put(b, r), op) == if op == r.op then Some(r) else Find(b, op)
    ensures |Put(b, r)| <= |b| + 1
    decreases |b|
  {
    if b != [] && b[0].op != r.op {
      PutFinds(b[1..], r, op);
      assert ([b[0]] + Put(b[1..], r))[1..] == Put(b[1..], r);
    } else if b != [] {
      assert ([r] + b[1..])[1..] == b[1..];
    }
  }

  lemma {:induction false} RemoveFinds(b: Buffer, gone: Op, op: Op)
    requires op != gone
    ensures Find(Remove(b, gone), op) == Find(b, op) && |Remove(b, gone)| <= |b|
    decreases |b|
  {
    if b != [] {
      RemoveFinds(b[1..], gone, op);
      if b[0].op != gone {
        assert ([b[0]] + Remove(b[1..], gone))[1..] == Remove(b[1..], gone);
      }
    }
  }

  // ----- one step while the answer is awaited -----

  /** The review buffer keeps what it knows about `op`, or learns `ev`. */
  predicate Learns(b: Buffer, after: Buffer, e: Event, key: string, ev: Arrival) {
    && Find(after, ev.op) == (if e == OnResult(ev) then Some(ev) else Find(b, ev.op))
    && |after| <= |b| + SameKey([e], key)
  }

  lemma OneKey(e: Event, key: string)
    ensures SameKey([e], key) == if e.OnResult? && e.r.key == key then 1 else 0
  {
    assert [e][1..] == [];
  }

  /** A result that goes into the review's buffer: the owner's, and not of the summary's operation. */
  predicate Enters(s: Page, c: Context, e: Event) {
    e.OnResult? && e.r.op != "" && e.r.key == c.owner.key && !Names(s.summary, e.r.op)
  }

  /** The operation that turns out to be the summary's: its result has come, or its answer. */
  function Claimed(s: Page, e: Event): Option<Op> {
    match e
    case OnResult(r) => if r.op != "" && Names(s.summary, r.op) then Some(r.op) else None
    case OnAckSummary(n, a) =>
      if n in s.summary.frames && IsCurrent(s.summary, n) && Matches(s, s.summary.frames[n].owner)
         && Accepted(a, s.summary.frames[n].owner) then Some(a.op) else None
    case _ => None
  }

  function NextEarly(s: Page, c: Context, e: Event): Buffer {
    if Enters(s, c, e) then Keep(s.review.early, e.r)
    else if Claimed(s, e).Some? then Remove(s.review.early, Claimed(s, e).value)
    else s.review.early
  }

  lemma {:induction false} RemoveTwice(b: Buffer, op: Op)
    ensures Remove(Remove(b, op), op) == Remove(b, op)
    decreases |b|
  {
    if b != [] {
      RemoveTwice(b[1..], op);
    }
  }

  lemma ReceiveWaits(s: Page, c: Context, r: Arrival)
    requires Waits(s, c) && c.op.None?
    ensures var t := Receive(s, r); Waits(t, c) && t.review == s.review.(early := NextEarly(s, c, OnResult(r)))
  {
    RemoveTwice(s.review.early, r.op);
  }

  lemma AckSummaryWaits(s: Page, c: Context, n: nat, a: Answer)
    requires Waits(s, c) && c.op.None? && Enabled(s, OnAckSummary(n, a))
    ensures var t := AckSummary(s, n, a); Waits(t, c) && t.review == s.review.(early := NextEarly(s, c, OnAckSummary(n, a)))
  {
    if a.Answered? {
      RemoveTwice(s.review.early, a.op);
      FindIn(s.summary.early, a.op);
    }
  }

  predicate FrameOf(s: Page, c: Context) {
    c.number in s.review.frames && s.review.frames[c.number].owner == c.owner
  }

  /** A calm step leaves the call unanswered and the tab under review. */
  lemma StepWaits(s: Page, c: Context, e: Event)
    requires Waits(s, c) && c.op.None? && Enabled(s, e) && Calm(c, e)
    ensures var t := Step(s, e);
            Waits(t, c) && t.review.early == NextEarly(s, c, e) && (FrameOf(s, c) ==> FrameOf(t, c))
  {
    match e
    case OnResult(r) => ReceiveWaits(s, c, r);
    case OnAckSummary(n, a) => AckSummaryWaits(s, c, n, a);
    case _ =>
  }

  /** A result of the summary's operation leaves the review alone, but for its buffer. */
  lemma SummaryTakes(s: Page, r: Arrival)
    requires Names(s.summary, r.op) && !Names(s.review, r.op)
    ensures var t := Dispatch(s, r);
            && t == s.(review := t.review, summary := t.summary, summaryView := t.summaryView, applied := t.applied)
            && t.review == s.review.(early := t.review.early)
  {
    hide Remove;
  }

  lemma StepWhileWaiting(s: Page, c: Context, e: Event, ev: Arrival)
    requires Inv(s) && Waits(s, c) && c.op.None? && Enabled(s, e) && Calm(c, e)
    requires ev.key == c.owner.key && ev.op != "" && OnlyResult([e], ev)
    requires !Named(Step(s, e).acked, ev.op)
    requires |s.review.early| + SameKey([e], c.owner.key) <= 4
    ensures Waits(Step(s, e), c) && Learns(s.review.early, Step(s, e).review.early, e, c.owner.key, ev)
  {
    hide Step, Waits, Inv, Calm;
    OneKey(e, c.owner.key);
    StepWaits(s, c, e);
    ClaimedIsNamed(s, e);
    assert e in [e];
    if Enters(s, c, e) {
      PutFinds(s.review.early, e.r, ev.op);
    } else if Claimed(s, e).Some? {
      RemoveFinds(s.review.early, Claimed(s, e).value, ev.op);
    }
  }

  /** What the summary claims is named to it. */
  lemma ClaimedIsNamed(s: Page, e: Event)
    requires Inv(s) && Enabled(s, e)
    ensures Claimed(s, e).Some? ==> Named(Step(s, e).acked, Claimed(s, e).value)
  {
    if Claimed(s, e).Some? {
      match e
      case OnResult(r) =>
        assert Summary(s.summary.number) in s.acked;
        ReceiveNames(s, r);
      case OnAckSummary(n, a) =>
        AckSummaryNames(s, n, a);
        assert Summary(n) in AckSummary(s, n, a).acked;
      case _ =>
    }
  }

  /** Operations stay named. */
  lemma NamesGrow(s: Page, e: Event, op: Op)
    requires Inv(s) && Enabled(s, e)
    ensures Named(s.acked, op) ==> Named(Step(s, e).acked, op)
  {
    hide Step;
    if Named(s.acked, op) {
      var c :| c in s.acked && s.acked[c] == op;
      AckedGrows(s, e, c);
    }
  }

  lemma AckedGrows(s: Page, e: Event, c: Call)
    requires Inv(s) && Enabled(s, e) && c in s.acked
    ensures c in Step(s, e).acked && Step(s, e).acked[c] == s.acked[c]
  {
    match e
    case OnAckReview(n, a) => AckReviewNames(s, n, a);
    case OnAckSummary(n, a) => AckSummaryNames(s, n, a);
    case OnResult(r) => ReceiveNames(s, r);
    case _ =>
  }

  lemma AckReviewNames(s: Page, n: nat, a: Answer)
    requires n in s.review.frames
    ensures AckReview(s, n, a).acked == if a.Answered? && a.op != "" then s.acked[Review(n) := a.op] else s.acked
  {
  }

  lemma AckSummaryNames(s: Page, n: nat, a: Answer)
    requires n in s.summary.frames
    ensures AckSummary(s, n, a).acked == if a.Answered? && a.op != "" then s.acked[Summary(n) := a.op] else s.acked
  {
  }

  lemma ReceiveNames(s: Page, r: Arrival)
    ensures Receive(s, r).acked == s.acked
  {
  }

  lemma {:induction false} NamesGrowOver(s: Page, events: seq<Event>, op: Op)
    requires Inv(s) && CanRun(s, events)
    ensures Named(s.acked, op) ==> Named(Run(s, events).acked, op)
    decreases |events|
  {
    hide Inv, Named;
    if events != [] {
      NamesGrow(s, events[0], op);
      StepKeeps(s, events[0]);
      NamesGrowOver(Step(s, events[0]), events[1..], op);
    }
  }

  predicate AllCalm(c: Context, events: seq<Event>) {
    forall e | e in events :: Calm(c, e)
  }

  lemma TailFacts(c: Context, events: seq<Event>, ev: Arrival)
    requires events != [] && AllCalm(c, events) && OnlyResult(events, ev)
    ensures Calm(c, events[0]) && AllCalm(c, events[1..]) && OnlyResult([events[0]], ev) && OnlyResult(events[1..], ev)
    ensures OnResult(ev) in events <==> OnResult(ev) == events[0] || OnResult(ev) in events[1..]
    ensures SameKey(events, c.owner.key) == SameKey([events[0]], c.owner.key) + SameKey(events[1..], c.owner.key)
  {
    assert events == [events[0]] + events[1..];
    OneKey(events[0], c.owner.key);
  }

  /** While the answer is awaited, at most four results with the owner's key leave the one that
      matters in the buffer. */
  lemma {:induction false} RunWhileWaiting(s: Page, c: Context, events: seq<Event>, ev: Arrival)
    requires Inv(s) && Waits(s, c) && c.op.None? && CanRun(s, events) && AllCalm(c, events)
    requires ev.key == c.owner.key && ev.op != "" && OnlyResult(events, ev)
    requires !Named(Run(s, events).acked, ev.op)
    requires |s.review.early| + SameKey(events, c.owner.key) <= 4
    ensures Waits(Run(s, events), c)
    ensures Find(Run(s, events).review.early, ev.op) == if OnResult(ev) in events then Some(ev) else Find(s.review.early, ev.op)
    decreases |events|
  {
    hide Inv, Waits, Named, OnlyResult, AllCalm, Step, Calm, SameKey;
    if events != [] {
      var t := Step(s, events[0]);
      TailFacts(c, events, ev);
      StepKeeps(s, events[0]);
      NamesGrowOver(t, events[1..], ev.op);
      StepWhileWaiting(s, c, events[0], ev);
      RunWhileWaiting(t, c, events[1..], ev);
    } else {
      assert SameKey([], c.owner.key) == 0 by {
        NoKeys(c.owner.key);
      }
    }
  }

  lemma NoKeys(key: string)
    ensures SameKey([], key) == 0
  {
  }

  // ----- the event first -----

  lemma AnswerShowsBuffered(s: Page, c: Context, ev: Arrival)
    requires Waits(s, c) && c.number in s.review.frames && s.review.frames[c.number].owner == c.owner
    requires ev.key == c.owner.key && ev.op != "" && Find(s.review.early, ev.op) == Some(ev) && !ev.outcome.OtherState?
    ensures TabShows(AckReview(s, c.number, Answered(ev.op, c.owner.key, true)), c, ShownFor(ev.outcome))
  {
  }

  /** The event arrives while the kickoff is unanswered, with at most four results of the same
      owner in all: once the answer names the operation, the tab shows the outcome. */
  lemma EventThenAnswer(s: Page, c: Context, events: seq<Event>, ev: Arrival)
    requires Inv(s) && Waits(s, c) && c.op.None? && s.review.early == []
    requires CanRun(s, events) && AllCalm(c, events)
    requires ev.key == c.owner.key && ev.op != "" && !ev.outcome.OtherState?
    requires OnlyResult(events, ev) && OnResult(ev) in events && SameKey(events, c.owner.key) <= 4
    requires var t := Run(s, events);
             !Named(t.acked, ev.op) && c.number in t.review.frames && t.review.frames[c.number].owner == c.owner
    ensures TabShows(AckReview(Run(s, events), c.number, Answered(ev.op, c.owner.key, true)), c, ShownFor(ev.outcome))
  {
    hide Inv, Waits, Named, OnlyResult, AllCalm, AckReview;
    RunWhileWaiting(s, c, events, ev);
    AnswerShowsBuffered(Run(s, events), c, ev);
  }

  // ----- the answer first -----

  /** The answer has named the operation, and the event is still to come or has come. */
  predicate NamedOrShown(s: Page, c: Context, ev: Arrival, came: bool) {
    && s.owner == Some(c.owner)
    && c.number <= s.review.number
    && if came then !IsCurrent(s.review, c.number) && TabShows(s, c, ShownFor(ev.outcome)) && s.review.context.None?
       else s.review.context == Some(c.(op := Some(ev.op))) && TabShows(s, c, Reviewing)
  }

  lemma StepWhenNamed(s: Page, c: Context, e: Event, ev: Arrival, came: bool)
    requires Inv(s) && NamedOrShown(s, c, ev, came) && Enabled(s, e) && Calm(c, e)
    requires ev.key == c.owner.key && ev.op != "" && !ev.outcome.OtherState? && OnlyResult([e], ev)
    ensures NamedOrShown(Step(s, e), c, ev, came || e == OnResult(ev))
  {
    match e
    case OnResult(r) =>
      assert e in [e];
      ResultWhenNamed(s, c, r, ev, came);
    case OnAckSummary(n, a) => AckSummaryWhenNamed(s, c, n, a, ev, came);
    case _ =>
  }

  lemma ResultWhenNamed(s: Page, c: Context, r: Arrival, ev: Arrival, came: bool)
    requires Inv(s) && NamedOrShown(s, c, ev, came)
    requires ev.key == c.owner.key && ev.op != "" && !ev.outcome.OtherState? && (r.op == ev.op ==> r == ev)
    ensures NamedOrShown(Receive(s, r), c, ev, came || r == ev)
  {
    if Names(s.summary, r.op) && !Names(s.review, r.op) && r.op != "" {
      SummaryTakes(s.(arrived := s.arrived + [r]), r);
    }
  }

  lemma AckSummaryWhenNamed(s: Page, c: Context, n: nat, a: Answer, ev: Arrival, came: bool)
    requires NamedOrShown(s, c, ev, came) && Enabled(s, OnAckSummary(n, a))
    ensures NamedOrShown(AckSummary(s, n, a), c, ev, came)
  {
  }

  lemma {:induction false} RunWhenNamed(s: Page, c: Context, events: seq<Event>, ev: Arrival, came: bool)
    requires Inv(s) && NamedOrShown(s, c, ev, came) && CanRun(s, events) && AllCalm(c, events)
    requires ev.key == c.owner.key && ev.op != "" && !ev.outcome.OtherState? && OnlyResult(events, ev)
    ensures NamedOrShown(Run(s, events), c, ev, came || OnResult(ev) in events)
    decreases |events|
  {
    hide Inv, NamedOrShown, OnlyResult, AllCalm, Step, Calm, SameKey;
    if events != [] {
      TailFacts(c, events, ev);
      StepKeeps(s, events[0]);
      StepWhenNamed(s, c, events[0], ev, came);
      RunWhenNamed(Step(s, events[0]), c, events[1..], ev, came || events[0] == OnResult(ev));
    }
  }

  /** The answer comes before the event: the same outcome, with no bound on other results. */
  lemma AnswerThenEvent(s: Page, c: Context, events: seq<Event>, ev: Arrival)
    requires Inv(s) && Waits(s, c) && c.op.None? && s.review.early == []
    requires ev.key == c.owner.key && ev.op != "" && !ev.outcome.OtherState? && OnlyResult(events, ev)
    requires var a := Answered(ev.op, c.owner.key, true);
             && Enabled(s, OnAckReview(c.number, a)) && s.review.frames[c.number].owner == c.owner
             && CanRun(AckReview(s, c.number, a), events) && AllCalm(c, events) && OnResult(ev) in events
    ensures TabShows(Run(AckReview(s, c.number, Answered(ev.op, c.owner.key, true)), events), c, ShownFor(ev.outcome))
  {
    hide AllCalm, OnlyResult, AcceptReview;
    var a := Answered(ev.op, c.owner.key, true);
    var t := AckReview(s, c.number, a);
    AckReviewKeeps(s, c.number, a);
    assert Find(s.review.early, ev.op).None?;
    assert NamedOrShown(t, c, ev, false);
    RunWhenNamed(t, c, events, ev, false);
  }

  /** Both orders leave the tab the same. */
  lemma OrderDoesNotMatter(s: Page, c: Context, events: seq<Event>, ev: Arrival)
    requires Inv(s) && Waits(s, c) && c.op.None? && s.review.early == []
    requires ev.key == c.owner.key && ev.op != "" && !ev.outcome.OtherState?
    requires AllCalm(c, events) && OnlyResult(events, ev) && OnResult(ev) in events && SameKey(events, c.owner.key) <= 4
    requires var ack := OnAckReview(c.number, Answered(ev.op, c.owner.key, true));
             && CanRun(s, events) && Enabled(Run(s, events), ack) && Run(s, events).review.frames[c.number].owner == c.owner
             && Enabled(s, ack) && s.review.frames[c.number].owner == c.owner && CanRun(Step(s, ack), events)
    ensures var ack := OnAckReview(c.number, Answered(ev.op, c.owner.key, true));
            c.target in Step(Run(s, events), ack).tabs && c.target in Run(Step(s, ack), events).tabs
    ensures var ack := OnAckReview(c.number, Answered(ev.op, c.owner.key, true));
            Step(Run(s, events), ack).tabs[c.target] == Run(Step(s, ack), events).tabs[c.target]
  {
    hide Inv, Waits, OnlyResult, AllCalm, AckReview;
    EventThenAnswer(s, c, events, ev);
    AnswerThenEvent(s, c, events, ev);
  }
}
