/** What a result makes the review tab and the summary show, with every kind of result written out;
    for the summary, in both orders of its answer and its event. */
module DiffShown {
  import opened Wrappers
  import opened DiffModel
  import opened DiffSafety
  import opened DiffOrder

  // ----- the tab -----

  /** The tab shows a completed diff as it is; a completed result without a readable diff, or a
      failed one, as a failure; a cancelled and a stale one as such. */
  ghost predicate TabSays(shown: Shown, outcome: Outcome) {
    && (forall d | outcome == Completed(Some(d)) :: shown == ShowsDiff(d))
    && (outcome == Completed(None) || outcome == Failed ==> shown == ShowsFailed)
    && (outcome == Cancelled ==> shown == ShowsCancelled)
    && (outcome == Stale ==> shown == ShowsStale)
  }

  lemma ShownSays(outcome: Outcome)
    ensures !outcome.OtherState? ==> TabSays(ShownFor(outcome), outcome)
  {
  }

  /** The event first, with at most four results of the owner: the tab says what it was. */
  lemma EventThenAnswerSays(s: Page, c: Context, events: seq<Event>, ev: Arrival)
    requires Inv(s) && Waits(s, c) && c.op.None? && s.review.early == []
    requires CanRun(s, events) && AllCalm(c, events)
    requires ev.key == c.owner.key && ev.op != "" && !ev.outcome.OtherState?
    requires OnlyResult(events, ev) && OnResult(ev) in events && SameKey(events, c.owner.key) <= 4
    requires var t := Run(s, events);
             !Named(t.acked, ev.op) && c.number in t.review.frames && t.review.frames[c.number].owner == c.owner
    ensures var r := AckReview(Run(s, events), c.number, Answered(ev.op, c.owner.key, true));
            c.target in r.tabs && r.tabs[c.target].call == c.number && TabSays(r.tabs[c.target].shown, ev.outcome)
  {
    EventThenAnswer(s, c, events, ev);
    ShownSays(ev.outcome);
    hide Inv, Waits, Named, OnlyResult, AllCalm, AckReview, ShownFor, TabSays;
  }

  /** The answer first: the same, with no bound. */
  lemma AnswerThenEventSays(s: Page, c: Context, events: seq<Event>, ev: Arrival)
    requires Inv(s) && Waits(s, c) && c.op.None? && s.review.early == []
    requires ev.key == c.owner.key && ev.op != "" && !ev.outcome.OtherState? && OnlyResult(events, ev)
    requires var a := Answered(ev.op, c.owner.key, true);
             && Enabled(s, OnAckReview(c.number, a)) && s.review.frames[c.number].owner == c.owner
             && CanRun(AckReview(s, c.number, a), events) && AllCalm(c, events) && OnResult(ev) in events
    ensures var r := Run(AckReview(s, c.number, Answered(ev.op, c.owner.key, true)), events);
            c.target in r.tabs && r.tabs[c.target].call == c.number && TabSays(r.tabs[c.target].shown, ev.outcome)
  {
    AnswerThenEvent(s, c, events, ev);
    ShownSays(ev.outcome);
    hide Inv, Waits, Named, OnlyResult, AllCalm, AckReview, ShownFor, TabSays;
  }

  /** A kickoff that fails, or whose answer names no operation, another owner or another state, and a
      result of the tab's operation for another owner, leave the tab failed. */
  lemma RefusalSaysFailed(s: Page, c: Context, a: Answer)
    requires Waits(s, c) && c.number in s.review.frames && s.review.frames[c.number].owner == c.owner
    requires s.review.frames[c.number].target == c.target
    requires a.Threw? || a.op == "" || a.key != c.owner.key || !a.reviewing
    ensures TabShows(AckReview(s, c.number, a), c, ShowsFailed) && AckReview(s, c.number, a).review.context.None?
  {
  }

  lemma ForeignSaysFailed(s: Page, c: Context, r: Arrival)
    requires c.op.Some? && r.op == c.op.value && r.op != "" && r.key != c.owner.key
    requires s.review.context == Some(c) && s.owner == Some(c.owner) && TabShows(s, c, Reviewing)
    ensures TabShows(Receive(s, r), c, ShowsFailed) && Receive(s, r).review.context.None?
  {
  }

  // ----- the summary -----

  predicate SummaryShows(s: Page, c: Context, shown: Shown) {
    s.summaryView == Some(View(c.owner, c.target, c.number, shown))
  }

  predicate SummaryWaits(s: Page, c: Context) {
    s.summary.context == Some(c) && s.owner == Some(c.owner) && SummaryShows(s, c, Reviewing)
  }

  /** What leaves the refresh of `c` alone; the review may do anything. */
  predicate SummaryCalm(c: Context, e: Event) {
    match e
    case OnRefresh(_) => false
    case OnAckSummary(n, _) => n != c.number
    case OnCancelSummary => false
    case OnOwner(_) => false
    case _ => true
  }

  predicate AllSummaryCalm(c: Context, events: seq<Event>) {
    forall e | e in events :: SummaryCalm(c, e)
  }

  /** What a calm step does to the summary's buffer. */
  function NextSummaryEarly(s: Page, c: Context, e: Event): Buffer {
    if !e.OnResult? || e.r.op == "" then s.summary.early
    else if Names(s.review, e.r.op) then Remove(s.summary.early, e.r.op)
    else if e.r.key == c.owner.key then Keep(s.summary.early, e.r)
    else s.summary.early
  }

  lemma ReceiveSummary(s: Page, c: Context, r: Arrival)
    requires SummaryWaits(s, c) && c.op.None?
    ensures var t := Receive(s, r);
            SummaryWaits(t, c) && t.summary == s.summary.(early := NextSummaryEarly(s, c, OnResult(r)))
  {
  }

  lemma AckReviewSummary(s: Page, n: nat, a: Answer)
    requires n in s.review.frames
    ensures var t := AckReview(s, n, a); t.summary == s.summary && t.summaryView == s.summaryView && t.owner == s.owner
  {
  }

  lemma StepSummary(s: Page, c: Context, e: Event)
    requires SummaryWaits(s, c) && c.op.None? && Enabled(s, e) && SummaryCalm(c, e)
    ensures SummaryWaits(Step(s, e), c) && Step(s, e).summary.early == NextSummaryEarly(s, c, e)
  {
    match e
    case OnResult(r) => ReceiveSummary(s, c, r);
    case OnAckReview(n, a) => AckReviewSummary(s, n, a);
    case _ =>
  }

  /** An operation the review names is named to it. */
  lemma ReviewNamed(s: Page, op: Op)
    requires Inv(s) && Names(s.review, op)
    ensures Named(s.acked, op)
  {
    assert Review(s.review.number) in s.acked;
  }

  lemma {:induction false} SummaryBuffers(s: Page, c: Context, events: seq<Event>, ev: Arrival)
    requires Inv(s) && SummaryWaits(s, c) && c.op.None? && CanRun(s, events) && AllSummaryCalm(c, events)
    requires ev.key == c.owner.key && ev.op != "" && OnlyResult(events, ev)
    requires !Named(Run(s, events).acked, ev.op)
    requires |s.summary.early| + SameKey(events, c.owner.key) <= 4
    ensures SummaryWaits(Run(s, events), c)
    ensures Find(Run(s, events).summary.early, ev.op) == if OnResult(ev) in events then Some(ev) else Find(s.summary.early, ev.op)
    decreases |events|
  {
    hide Inv, SummaryWaits, Named, OnlyResult, AllSummaryCalm, Step, SummaryCalm, SameKey, NextSummaryEarly;
    if events != [] {
      var e := events[0];
      var t := Step(s, e);
      SummaryTail(c, events, ev);
      StepKeeps(s, e);
      NamesGrow(s, e, ev.op);
      NamesGrowOver(t, events[1..], ev.op);
      StepSummary(s, c, e);
      NextSummaryFinds(s, c, e, ev);
      SummaryBuffers(t, c, events[1..], ev);
    } else {
      NoKeys(c.owner.key);
    }
  }

  lemma SummaryTail(c: Context, events: seq<Event>, ev: Arrival)
    requires events != [] && AllSummaryCalm(c, events) && OnlyResult(events, ev)
    ensures SummaryCalm(c, events[0]) && AllSummaryCalm(c, events[1..])
    ensures OnlyResult([events[0]], ev) && OnlyResult(events[1..], ev)
    ensures OnResult(ev) in events <==> OnResult(ev) == events[0] || OnResult(ev) in events[1..]
    ensures SameKey(events, c.owner.key) == SameKey([events[0]], c.owner.key) + SameKey(events[1..], c.owner.key)
  {
    assert events == [events[0]] + events[1..];
    OneKey(events[0], c.owner.key);
  }

  lemma NextSummaryFinds(s: Page, c: Context, e: Event, ev: Arrival)
    requires Inv(s) && !Named(s.acked, ev.op) && ev.key == c.owner.key && ev.op != "" && OnlyResult([e], ev)
    requires |s.summary.early| + SameKey([e], c.owner.key) <= 4
    ensures var b := NextSummaryEarly(s, c, e);
            && Find(b, ev.op) == (if e == OnResult(ev) then Some(ev) else Find(s.summary.early, ev.op))
            && |b| <= |s.summary.early| + SameKey([e], c.owner.key)
  {
    hide Inv;
    OneKey(e, c.owner.key);
    assert e in [e];
    if e.OnResult? && e.r.op != "" {
      if Names(s.review, e.r.op) {
        ReviewNamed(s, e.r.op);
        RemoveFinds(s.summary.early, e.r.op, ev.op);
      } else {
        PutFinds(s.summary.early, e.r, ev.op);
      }
    }
  }

  /** The summary shows a completed diff as it is, and everything else as a failure. */
  ghost predicate SummarySays(shown: Shown, outcome: Outcome) {
    && (forall d | outcome == Completed(Some(d)) :: shown == ShowsDiff(d))
    && ((forall d :: outcome != Completed(Some(d))) ==> shown == ShowsFailed)
  }

  lemma AnswerShowsSummary(s: Page, c: Context, ev: Arrival)
    requires SummaryWaits(s, c) && c.number in s.summary.frames && s.summary.frames[c.number].owner == c.owner
    requires ev.key == c.owner.key && ev.op != "" && Find(s.summary.early, ev.op) == Some(ev) && !ev.outcome.OtherState?
    ensures var r := AckSummary(s, c.number, Answered(ev.op, c.owner.key, true));
            SummaryShows(r, c, SummaryFor(ev.outcome)) && r.summary.context.None?
  {
  }

  lemma SummaryForSays(outcome: Outcome)
    ensures !outcome.OtherState? ==> SummarySays(SummaryFor(outcome), outcome)
  {
    if outcome.Completed? && outcome.diff.Some? {
      assert outcome == Completed(Some(outcome.diff.value));
    }
  }

  /** The event first, with at most four results of the owner while the refresh is unanswered. */
  lemma SummaryEventThenAnswer(s: Page, c: Context, events: seq<Event>, ev: Arrival)
    requires Inv(s) && SummaryWaits(s, c) && c.op.None? && s.summary.early == []
    requires CanRun(s, events) && AllSummaryCalm(c, events)
    requires ev.key == c.owner.key && ev.op != "" && !ev.outcome.OtherState?
    requires OnlyResult(events, ev) && OnResult(ev) in events && SameKey(events, c.owner.key) <= 4
    requires var t := Run(s, events);
             !Named(t.acked, ev.op) && c.number in t.summary.frames && t.summary.frames[c.number].owner == c.owner
    ensures var v := AckSummary(Run(s, events), c.number, Answered(ev.op, c.owner.key, true)).summaryView;
            v.Some? && v.value.call == c.number && v.value.target == c.target && SummarySays(v.value.shown, ev.outcome)
  {
    hide Inv, SummaryWaits, Named, OnlyResult, AllSummaryCalm, AckSummary, SummaryFor, SummarySays;
    SummaryBuffers(s, c, events, ev);
    AnswerShowsSummary(Run(s, events), c, ev);
    SummaryForSays(ev.outcome);
  }

  // ----- the answer first -----

  /** The answer has named the operation, and the event is still to come or has come. */
  predicate SummaryNamed(s: Page, c: Context, ev: Arrival, came: bool) {
    && s.owner == Some(c.owner) && c.number <= s.summary.number
    && if came then s.summary.context.None? && SummaryShows(s, c, SummaryFor(ev.outcome))
       else s.summary.context == Some(c.(op := Some(ev.op))) && SummaryShows(s, c, Reviewing)
  }

  lemma ResultNamed(s: Page, c: Context, r: Arrival, ev: Arrival, came: bool)
    requires Inv(s) && SummaryNamed(s, c, ev, came)
    requires ev.key == c.owner.key && ev.op != "" && !ev.outcome.OtherState? && (r.op == ev.op ==> r == ev)
    ensures SummaryNamed(Receive(s, r), c, ev, came || r == ev)
  {
  }

  lemma StepNamed(s: Page, c: Context, e: Event, ev: Arrival, came: bool)
    requires Inv(s) && SummaryNamed(s, c, ev, came) && Enabled(s, e) && SummaryCalm(c, e)
    requires ev.key == c.owner.key && ev.op != "" && !ev.outcome.OtherState? && OnlyResult([e], ev)
    ensures SummaryNamed(Step(s, e), c, ev, came || e == OnResult(ev))
  {
    match e
    case OnResult(r) =>
      assert e in [e];
      ResultNamed(s, c, r, ev, came);
    case OnAckReview(n, a) => AckReviewSummary(s, n, a);
    case _ =>
  }

  lemma {:induction false} RunNamed(s: Page, c: Context, events: seq<Event>, ev: Arrival, came: bool)
    requires Inv(s) && SummaryNamed(s, c, ev, came) && CanRun(s, events) && AllSummaryCalm(c, events)
    requires ev.key == c.owner.key && ev.op != "" && !ev.outcome.OtherState? && OnlyResult(events, ev)
    ensures SummaryNamed(Run(s, events), c, ev, came || OnResult(ev) in events)
    decreases |events|
  {
    hide Inv, SummaryNamed, OnlyResult, AllSummaryCalm, Step, SummaryCalm, SameKey;
    if events != [] {
      SummaryTail(c, events, ev);
      StepKeeps(s, events[0]);
      StepNamed(s, c, events[0], ev, came);
      RunNamed(Step(s, events[0]), c, events[1..], ev, came || events[0] == OnResult(ev));
    }
  }

  /** The answer comes before the event: the same, with no bound on other results. */
  lemma SummaryAnswerThenEvent(s: Page, c: Context, events: seq<Event>, ev: Arrival)
    requires Inv(s) && SummaryWaits(s, c) && c.op.None? && s.summary.early == []
    requires ev.key == c.owner.key && ev.op != "" && !ev.outcome.OtherState? && OnlyResult(events, ev)
    requires var a := Answered(ev.op, c.owner.key, true);
             && Enabled(s, OnAckSummary(c.number, a)) && s.summary.frames[c.number].owner == c.owner
             && CanRun(AckSummary(s, c.number, a), events) && AllSummaryCalm(c, events) && OnResult(ev) in events
    ensures var v := Run(AckSummary(s, c.number, Answered(ev.op, c.owner.key, true)), events).summaryView;
            v.Some? && v.value.call == c.number && v.value.target == c.target && SummarySays(v.value.shown, ev.outcome)
  {
    var a := Answered(ev.op, c.owner.key, true);
    var t := AckSummary(s, c.number, a);
    AckSummaryKeeps(s, c.number, a);
    NamedAtOnce(s, c, ev);
    SummaryForSays(ev.outcome);
    hide Inv, SummaryWaits, OnlyResult, AllSummaryCalm, AckSummary, SummaryFor, SummarySays;
    RunNamed(t, c, events, ev, false);
  }

  lemma NamedAtOnce(s: Page, c: Context, ev: Arrival)
    requires Inv(s) && SummaryWaits(s, c) && c.op.None? && s.summary.early == [] && ev.op != "" && ev.key == c.owner.key
    requires c.number in s.summary.frames && s.summary.frames[c.number].owner == c.owner
    ensures SummaryNamed(AckSummary(s, c.number, Answered(ev.op, c.owner.key, true)), c, ev, false)
  {
    assert Find(s.summary.early, ev.op).None?;
  }

  /** A refusal, and a result of the summary's operation for another owner, leave it failed. */
  lemma SummaryRefusalSaysFailed(s: Page, c: Context, a: Answer)
    requires SummaryWaits(s, c) && c.number in s.summary.frames && s.summary.frames[c.number].owner == c.owner
    requires s.summary.frames[c.number].target == c.target
    requires a.Threw? || a.op == "" || a.key != c.owner.key || !a.reviewing
    ensures SummaryShows(AckSummary(s, c.number, a), c, ShowsFailed) && AckSummary(s, c.number, a).summary.context.None?
  {
  }

  lemma SummaryForeignSaysFailed(s: Page, c: Context, r: Arrival)
    requires c.op.Some? && r.op == c.op.value && r.op != "" && r.key != c.owner.key && !Names(s.review, r.op)
    requires s.summary.context == Some(c) && s.owner == Some(c.owner) && SummaryShows(s, c, Reviewing)
    ensures SummaryShows(Receive(s, r), c, ShowsFailed) && Receive(s, r).summary.context.None?
  {
  }
}
