/** What is closed, given up or shown to another owner: it stays away until it is opened again, and a
    result that has been taken up is forgotten. */
module DiffGivenUp {
  import opened Wrappers
  import opened DiffModel
  import opened DiffSafety

  // ----- closing -----

  lemma ResultMakesNoTab(s: Page, r: Arrival)
    ensures Receive(s, r).tabs.Keys == s.tabs.Keys
  {
  }

  lemma AnswerMakesNoTab(s: Page, n: nat, a: Answer)
    requires n in s.review.frames
    ensures AckReview(s, n, a).tabs.Keys == s.tabs.Keys
  {
  }

  lemma SummaryKeepsTabs(s: Page, n: nat, a: Answer)
    requires n in s.summary.frames
    ensures AckSummary(s, n, a).tabs == s.tabs
  {
  }

  lemma OnlyOpenMakesTabs(s: Page, e: Event)
    requires Enabled(s, e)
    ensures forall id | id in Step(s, e).tabs :: id in s.tabs || e == OnOpen(id)
  {
    match e
    case OnResult(r) => ResultMakesNoTab(s, r);
    case OnAckReview(n, a) => AnswerMakesNoTab(s, n, a);
    case OnAckSummary(n, a) => SummaryKeepsTabs(s, n, a);
    case _ =>
  }

  lemma {:induction false} AbsentStays(s: Page, events: seq<Event>, id: string)
    requires CanRun(s, events) && id !in s.tabs && OnOpen(id) !in events
    ensures id !in Run(s, events).tabs
    decreases |events|
  {
    hide Step, Enabled;
    if events != [] {
      OnlyOpenMakesTabs(s, events[0]);
      AbsentStays(Step(s, events[0]), events[1..], id);
    }
  }

  /** A closed tab stays closed until it is opened again, whatever answers and results come; closing
      it leaves the other tabs alone, and gives its own diff up if that is still awaited. */
  lemma ClosedStaysClosed(s: Page, events: seq<Event>, id: string)
    requires CanRun(s, [OnCloseTab(id)] + events) && OnOpen(id) !in events
    ensures id !in Run(s, [OnCloseTab(id)] + events).tabs
    ensures var t := Step(s, OnCloseTab(id));
            && (forall other | other != id :: (other in t.tabs <==> other in s.tabs) && (other in s.tabs ==> t.tabs[other] == s.tabs[other]))
            && (id in s.tabs && s.review.context.Some? && s.review.context.value.target == id ==> t.review.context.None?)
            && t.summary == s.summary && t.summaryView == s.summaryView
  {
    var t := Step(s, OnCloseTab(id));
    assert ([OnCloseTab(id)] + events)[1..] == events;
    AbsentStays(t, events, id);
  }

  /** Closing the panel closes every tab. */
  lemma ClosedPanelStaysClosed(s: Page, events: seq<Event>, id: string)
    requires CanRun(s, [OnClosePanel] + events) && OnOpen(id) !in events
    ensures id !in Run(s, [OnClosePanel] + events).tabs
    ensures var t := Step(s, OnClosePanel); t.review.context.None? && t.review.early == [] && t.summary == s.summary
  {
    assert ([OnClosePanel] + events)[1..] == events;
    AbsentStays(Step(s, OnClosePanel), events, id);
  }

  // ----- giving up -----

  predicate Silent(before: Page, after: Page) {
    forall id | id in after.tabs :: id in before.tabs && after.tabs[id] == before.tabs[id]
  }

  lemma SilentStep(s: Page, e: Event)
    requires Enabled(s, e) && s.review.context.None? && !e.OnOpen?
    ensures Step(s, e).review.context.None? && Silent(s, Step(s, e))
  {
    match e
    case OnResult(r) => SilentResult(s, r);
    case OnAckSummary(n, a) => SilentSummary(s, n, a);
    case _ =>
  }

  lemma SilentResult(s: Page, r: Arrival)
    requires s.review.context.None?
    ensures Receive(s, r).review.context.None? && Receive(s, r).tabs == s.tabs
  {
  }

  lemma SilentSummary(s: Page, n: nat, a: Answer)
    requires s.review.context.None? && n in s.summary.frames
    ensures AckSummary(s, n, a).review.context.None? && AckSummary(s, n, a).tabs == s.tabs
  {
  }

  lemma {:induction false} SilentRun(s: Page, events: seq<Event>)
    requires CanRun(s, events) && s.review.context.None? && forall e | e in events :: !e.OnOpen?
    ensures Run(s, events).review.context.None? && Silent(s, Run(s, events))
    decreases |events|
  {
    hide Step, Enabled;
    if events != [] {
      SilentStep(s, events[0]);
      SilentRun(Step(s, events[0]), events[1..]);
    }
  }

  /** Once the diff under review is given up, no answer and no result changes any tab, until a diff is
      opened: tabs can only be closed. */
  lemma GivenUpIsSilent(s: Page, events: seq<Event>)
    requires CanRun(s, [OnCancelReview] + events) && forall e | e in events :: !e.OnOpen?
    ensures Silent(s, Run(s, [OnCancelReview] + events)) && Run(s, [OnCancelReview] + events).review.context.None?
  {
    assert ([OnCancelReview] + events)[1..] == events;
    SilentRun(Step(s, OnCancelReview), events);
  }

  predicate SummarySilent(before: Page, after: Page) {
    after.summaryView.Some? ==> after.summaryView == before.summaryView
  }

  lemma SummarySilentStep(s: Page, e: Event)
    requires Enabled(s, e) && s.summary.context.None? && !e.OnRefresh?
    ensures Step(s, e).summary.context.None? && SummarySilent(s, Step(s, e))
  {
  }

  lemma {:induction false} SummarySilentRun(s: Page, events: seq<Event>)
    requires CanRun(s, events) && s.summary.context.None? && forall e | e in events :: !e.OnRefresh?
    ensures Run(s, events).summary.context.None? && SummarySilent(s, Run(s, events))
    decreases |events|
  {
    hide Step, Enabled;
    if events != [] {
      SummarySilentStep(s, events[0]);
      SummarySilentRun(Step(s, events[0]), events[1..]);
    }
  }

  /** The same for the summary. */
  lemma GivenUpSummaryIsSilent(s: Page, events: seq<Event>)
    requires CanRun(s, [OnCancelSummary] + events) && forall e | e in events :: !e.OnRefresh?
    ensures SummarySilent(s, Run(s, [OnCancelSummary] + events)) && Run(s, [OnCancelSummary] + events).summary.context.None?
  {
    assert ([OnCancelSummary] + events)[1..] == events;
    SummarySilentRun(Step(s, OnCancelSummary), events);
  }

  // ----- another owner -----

  predicate Owned(s: Page) {
    && (forall id | id in s.tabs :: s.owner == Some(s.tabs[id].owner))
    && (s.summaryView.Some? ==> s.owner == Some(s.summaryView.value.owner))
  }

  /** The owners of what is shown stay what they are. */
  predicate SameOwners(s: Page, t: Page) {
    && t.owner == s.owner && t.tabs.Keys == s.tabs.Keys && (forall id | id in t.tabs :: t.tabs[id].owner == s.tabs[id].owner)
    && (t.summaryView.Some? ==> s.summaryView.Some? && t.summaryView.value.owner == s.summaryView.value.owner)
  }

  lemma ResultKeepsOwners(s: Page, r: Arrival)
    ensures SameOwners(s, Receive(s, r))
  {
  }

  lemma ReviewKeepsOwners(s: Page, n: nat, a: Answer)
    requires n in s.review.frames
    ensures SameOwners(s, AckReview(s, n, a))
  {
  }

  lemma SummaryKeepsOwners(s: Page, n: nat, a: Answer)
    requires n in s.summary.frames
    ensures SameOwners(s, AckSummary(s, n, a))
  {
  }

  lemma OwnedStep(s: Page, e: Event)
    requires Enabled(s, e) && Owned(s) && !e.OnOwner?
    ensures Owned(Step(s, e)) && Step(s, e).owner == s.owner
  {
    hide Receive, AckReview, AckSummary;
    match e
    case OnResult(r) => ResultKeepsOwners(s, r);
    case OnAckReview(n, a) => ReviewKeepsOwners(s, n, a);
    case OnAckSummary(n, a) => SummaryKeepsOwners(s, n, a);
    case _ =>
  }

  lemma EffectsOwn(s: Page)
    ensures var t := Step(Step(s, OnReviewEffect), OnSummaryEffect); Owned(t) && t.owner == s.owner
  {
  }

  lemma {:induction false} OwnedRun(s: Page, events: seq<Event>)
    requires CanRun(s, events) && Owned(s) && forall e | e in events :: !e.OnOwner?
    ensures Owned(Run(s, events)) && Run(s, events).owner == s.owner
    decreases |events|
  {
    hide Step, Enabled, Owned;
    if events != [] {
      OwnedStep(s, events[0]);
      OwnedRun(Step(s, events[0]), events[1..]);
    }
  }

  /** Whatever was shown before: once the page shows another owner and its two effects have run,
      everything it shows belongs to that owner, and does so until the owner changes again. */
  lemma OnlyOwnIsShown(s: Page, owner: Option<Owner>, events: seq<Event>)
    requires CanRun(s, [OnOwner(owner), OnReviewEffect, OnSummaryEffect] + events) && forall e | e in events :: !e.OnOwner?
    ensures var t := Run(s, [OnOwner(owner), OnReviewEffect, OnSummaryEffect] + events); Owned(t) && t.owner == owner
  {
    var all := [OnOwner(owner), OnReviewEffect, OnSummaryEffect] + events;
    var a := Step(s, OnOwner(owner));
    var b := Step(a, OnReviewEffect);
    EffectsOwn(a);
    hide Step, Enabled, Owned;
    assert all[1..][1..][1..] == events && all[1..][0] == OnReviewEffect && all[1..][1..][0] == OnSummaryEffect;
    assert CanRun(b, all[1..][1..]) && Run(s, all) == Run(b, all[1..][1..]);
    OwnedRun(Step(b, OnSummaryEffect), events);
  }

  /** The effects take away nothing that is the owner's. */
  lemma OwnStays(s: Page)
    ensures var t := Step(Step(s, OnReviewEffect), OnSummaryEffect);
            && (forall id | id in s.tabs && s.owner == Some(s.tabs[id].owner) :: id in t.tabs && t.tabs[id] == s.tabs[id])
            && (s.summaryView.Some? && s.owner == Some(s.summaryView.value.owner) ==> t.summaryView == s.summaryView)
            && (s.review.context.Some? && s.owner == Some(s.review.context.value.owner) ==> t.review == s.review)
            && (s.summary.context.Some? && s.owner == Some(s.summary.context.value.owner) ==> t.summary == s.summary)
            && (t.review.context.Some? ==> s.owner == Some(t.review.context.value.owner))
            && (t.summary.context.Some? ==> s.owner == Some(t.summary.context.value.owner))
  {
  }

  // ----- results that are taken up, or not -----

  lemma {:induction false} RemoveForgets(b: Buffer, op: Op)
    ensures Find(Remove(b, op), op).None?
    decreases |b|
  {
    if b != [] {
      RemoveForgets(b[1..], op);
      if b[0].op != op {
        assert ([b[0]] + Remove(b[1..], op))[1..] == Remove(b[1..], op);
      }
    }
  }

  predicate Forgets(t: Page, isReview: bool, op: Op) {
    Find(if isReview then t.review.early else t.summary.early, op).None?
  }

  lemma ResultIsForgotten(s: Page, r: Arrival)
    ensures var t := Receive(s, r);
            t.applied != s.applied ==> |t.applied| == |s.applied| + 1 && t.applied[|s.applied|].1 == r && Forgets(t, true, r.op) && Forgets(t, false, r.op)
  {
    RemoveForgets(s.review.early, r.op);
    RemoveForgets(s.summary.early, r.op);
    RemoveForgets(Remove(s.review.early, r.op), r.op);
    RemoveForgets(Remove(s.summary.early, r.op), r.op);
  }

  lemma AnswerIsForgotten(s: Page, n: nat, op: Op, key: string)
    requires n in s.review.frames
    ensures var t := AckReview(s, n, Answered(op, key, true));
            t.applied != s.applied ==> |t.applied| == |s.applied| + 1 && t.applied[|s.applied|].1.op == op && t.review.early == []
  {
    FindIn(s.review.early, op);
  }

  lemma SummaryIsForgotten(s: Page, n: nat, op: Op, key: string)
    requires n in s.summary.frames
    ensures var t := AckSummary(s, n, Answered(op, key, true));
            t.applied != s.applied ==>
              |t.applied| == |s.applied| + 1 && t.applied[|s.applied|].1.op == op && Forgets(t, true, op) && Forgets(t, false, op)
  {
    FindIn(s.summary.early, op);
    RemoveForgets(s.review.early, op);
    RemoveForgets(s.summary.early, op);
    RemoveForgets(Remove(s.review.early, op), op);
    RemoveForgets(Remove(s.summary.early, op), op);
  }

  /** A result that is taken up is buffered no more: for the summary, on neither side. */
  lemma TakenIsForgotten(s: Page, e: Event, call: Call, r: Arrival)
    requires Enabled(s, e) && Step(s, e).applied == s.applied + [(call, r)]
    ensures Forgets(Step(s, e), true, r.op)
    ensures e.OnAckSummary? || e.OnResult? ==> Forgets(Step(s, e), false, r.op)
  {
    assert (s.applied + [(call, r)])[|s.applied|] == (call, r);
    hide Receive, AckReview, AckSummary;
    match e
    case OnResult(x) => ResultIsForgotten(s, x);
    case OnAckReview(n, a) =>
      if a.Threw? || !a.reviewing {
        RefusedShowsNothing(s, n, a);
      }
      AnswerIsForgotten(s, n, a.op, a.key);
    case OnAckSummary(n, a) =>
      if a.Threw? || !a.reviewing {
        RefusedShowsNothing(s, n, a);
      }
      SummaryIsForgotten(s, n, a.op, a.key);
    case _ =>
  }

  lemma RefusedShowsNothing(s: Page, n: nat, a: Answer)
    requires a.Threw? || !a.reviewing
    ensures n in s.review.frames ==> AckReview(s, n, a).applied == s.applied
    ensures n in s.summary.frames ==> AckSummary(s, n, a).applied == s.applied
  {
  }

  /** A result in a state the page does not know leaves its call waiting. */
  lemma UnknownIsIgnored(s: Page, r: Arrival)
    requires r.op != "" && r.outcome.OtherState? && (Names(s.review, r.op) || Names(s.summary, r.op))
    requires Names(s.review, r.op) ==> s.owner == Some(s.review.context.value.owner) && r.key == s.review.context.value.owner.key
    requires !Names(s.review, r.op) ==> s.owner == Some(s.summary.context.value.owner) && r.key == s.summary.context.value.owner.key
    ensures var t := Receive(s, r);
            && t.review.context == s.review.context && t.summary.context == s.summary.context
            && t.tabs == s.tabs && t.summaryView == s.summaryView && t.applied == s.applied && t.cancelled == s.cancelled
  {
  }
}
