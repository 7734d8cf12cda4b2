/** Over every run of DiffModel: a result of a superseded call, or of another owner, is never
    shown, and no result is shown twice. */
module DiffSafety {
  import opened Wrappers
  import opened DiffModel

  function CallOf(isReview: bool, n: nat): Call {
    if isReview then Review(n) else Summary(n)
  }

  /** One side: its context is its last call, named only by its own answer; what is buffered has
      arrived; and a call that has shown its result is over. */
  predicate SideOk(side: Side, isReview: bool, acked: map<Call, Op>, arrived: seq<Arrival>, applied: seq<(Call, Arrival)>) {
    && (side.context.Some? ==> side.context.value.number == side.number)
    && (side.context.Some? && side.context.value.op.Some? ==>
          var call := CallOf(isReview, side.number);
          call in acked && acked[call] == side.context.value.op.value)
    && (forall n | n in side.frames :: n <= side.number && CallOf(isReview, n) !in acked)
    && (forall call | call in acked && call.Review? == isReview :: call.number <= side.number)
    && (forall r | r in side.early :: r in arrived)
    && (forall e | e in applied && e.0.Review? == isReview :: e.0.number <= side.number && !IsCurrent(side, e.0.number))
  }

  /** No operation is named to two calls. */
  predicate AckedOk(acked: map<Call, Op>) {
    forall c, d | c in acked && d in acked && c != d :: acked[c] != acked[d]
  }

  /** What is shown has arrived, for the operation of its call; each call shows one result. */
  predicate AppliedOk(acked: map<Call, Op>, arrived: seq<Arrival>, applied: seq<(Call, Arrival)>) {
    && (forall e | e in applied :: e.0 in acked && acked[e.0] == e.1.op && e.1 in arrived)
    && (forall i, j | 0 <= i < j < |applied| :: applied[i].0 != applied[j].0)
  }

  predicate IsResult(shown: Shown) {
    shown.ShowsDiff? || shown.ShowsCancelled? || shown.ShowsStale?
  }

  /** A view that shows a result shows the one applied by its own call. */
  predicate ViewOk(view: View, isReview: bool, applied: seq<(Call, Arrival)>) {
    IsResult(view.shown) ==>
      exists e | e in applied :: e.0 == CallOf(isReview, view.call) && e.1.key == view.owner.key && ShownFor(e.1.outcome) == view.shown
  }

  /** The view of the current context is the one its call began. */
  predicate OwnView(side: Side, view: View) {
    side.context.Some? && side.context.value.target == view.target ==>
      view.call == side.number && view.owner == side.context.value.owner
  }

  predicate ViewsOk(s: Page) {
    && (forall id | id in s.tabs :: s.tabs[id].target == id && OwnView(s.review, s.tabs[id]) && ViewOk(s.tabs[id], true, s.applied))
    && (s.summaryView.Some? ==> OwnView(s.summary, s.summaryView.value) && ViewOk(s.summaryView.value, false, s.applied))
  }

  predicate Inv(s: Page) {
    && SideOk(s.review, true, s.acked, s.arrived, s.applied)
    && SideOk(s.summary, false, s.acked, s.arrived, s.applied)
    && AckedOk(s.acked)
    && AppliedOk(s.acked, s.arrived, s.applied)
    && ViewsOk(s)
  }

  // ----- buffers -----

  lemma {:induction false} RemoveShrinks(b: Buffer, op: Op)
    ensures forall r | r in Remove(b, op) :: r in b
    decreases |b|
  {
    if b != [] {
      RemoveShrinks(b[1..], op);
    }
  }

  lemma {:induction false} PutAdds(b: Buffer, r: Arrival)
    ensures forall x | x in Put(b, r) :: x in b || x == r
    decreases |b|
  {
    if b != [] {
      PutAdds(b[1..], r);
    }
  }

  lemma KeepAdds(b: Buffer, r: Arrival)
    ensures forall x | x in Keep(b, r) :: x in b || x == r
  {
    PutAdds(if |b| >= 4 then b[1..] else b, r);
  }

  lemma {:induction false} FindIn(b: Buffer, op: Op)
    ensures Find(b, op).Some? ==> Find(b, op).value in b && Find(b, op).value.op == op
    decreases |b|
  {
    if b != [] && b[0].op != op {
      FindIn(b[1..], op);
    }
  }

  // ----- small changes that keep everything -----

  /** A side gives its context up, or its buffer changes to other arrivals. */
  lemma SideChanges(s: Page, isReview: bool, side: Side)
    requires Inv(s)
    requires var was := if isReview then s.review else s.summary;
             && side.number >= was.number && side.frames.Keys <= was.frames.Keys
             && (side.context.None? || (side.context == was.context && side.number == was.number))
    requires forall r | r in side.early :: r in s.arrived
    ensures Inv(if isReview then s.(review := side) else s.(summary := side))
  {
    var r := if isReview then s.(review := side) else s.(summary := side);
    assert forall id | id in s.tabs :: OwnView(s.review, s.tabs[id]) && ViewOk(s.tabs[id], true, s.applied);
  }

  lemma ShowFailed(s: Page, id: string)
    requires Inv(s)
    ensures Inv(s.(tabs := ShowTab(s.tabs, id, ShowsFailed))) && Inv(s.(summaryView := ShowSummary(s.summaryView, id, ShowsFailed)))
  {
  }

  lemma Arrives(s: Page, r: Arrival)
    requires Inv(s)
    ensures Inv(s.(arrived := s.arrived + [r]))
  {
  }

  lemma Cancels(s: Page, cancelled: set<Op>)
    requires Inv(s)
    ensures Inv(s.(cancelled := cancelled))
  {
  }

  // ----- results -----

  /** A result reaches a view only from the last call of its side, still current, for the
      operation of that call, for the owner the page shows, and with that owner's key. */
  lemma AcceptReviewKeeps(s: Page, r: Arrival)
    requires Inv(s) && r in s.arrived
    ensures Inv(AcceptReview(s, r))
    ensures AcceptReview(s, r).applied != s.applied ==>
      && s.review.context.Some? && s.review.context.value.number == s.review.number
      && Matches(s, s.review.context.value.owner) && r.key == s.review.context.value.owner.key
      && AcceptReview(s, r).applied == s.applied + [(Review(s.review.number), r)]
  {
    if Names(s.review, r.op) {
      var c := s.review.context.value;
      RemoveShrinks(s.review.early, r.op);
      SideChanges(s, true, s.review.(context := None));
      var off := s.(review := s.review.(context := None));
      ShowFailed(off, c.target);
      if Matches(s, c.owner) && r.key == c.owner.key && !r.outcome.OtherState? {
        AppliesReview(s, r);
      }
    }
  }

  lemma AppliesReview(s: Page, r: Arrival)
    requires Inv(s) && r in s.arrived && Names(s.review, r.op) && r.key == s.review.context.value.owner.key
    ensures Inv(s.(review := s.review.(context := None, early := Remove(s.review.early, r.op)),
                   tabs := ShowTab(s.tabs, s.review.context.value.target, ShownFor(r.outcome)),
                   applied := s.applied + [(Review(s.review.number), r)]))
  {
    RemoveShrinks(s.review.early, r.op);
    var e := (Review(s.review.number), r);
    var applied := s.applied + [e];
    forall i | 0 <= i < |s.applied| ensures s.applied[i].0 != e.0 {
      assert s.applied[i] in s.applied;
    }
    forall id | id in s.tabs ensures ViewOk(s.tabs[id], true, applied) {
      ViewGrows(s.tabs[id], true, s.applied, e);
    }
    if s.summaryView.Some? {
      ViewGrows(s.summaryView.value, false, s.applied, e);
    }
    assert e in applied;
  }

  lemma ViewGrows(view: View, isReview: bool, applied: seq<(Call, Arrival)>, e: (Call, Arrival))
    requires ViewOk(view, isReview, applied)
    ensures ViewOk(view, isReview, applied + [e])
  {
    if IsResult(view.shown) {
      var x :| x in applied && x.0 == CallOf(isReview, view.call) && x.1.key == view.owner.key && ShownFor(x.1.outcome) == view.shown;
      assert x in applied + [e];
    }
  }

  lemma AcceptSummaryKeeps(s: Page, r: Arrival)
    requires Inv(s) && r in s.arrived
    ensures Inv(AcceptSummary(s, r))
    ensures AcceptSummary(s, r).applied != s.applied ==>
      && s.summary.context.Some? && s.summary.context.value.number == s.summary.number
      && Matches(s, s.summary.context.value.owner) && r.key == s.summary.context.value.owner.key
      && AcceptSummary(s, r).applied == s.applied + [(Summary(s.summary.number), r)]
  {
    if Names(s.summary, r.op) {
      var c := s.summary.context.value;
      SideChanges(s, false, s.summary.(context := None));
      var off := s.(summary := s.summary.(context := None));
      ShowFailed(off, c.target);
      if Matches(s, c.owner) && r.key == c.owner.key && !r.outcome.OtherState? {
        RemoveShrinks(s.review.early, r.op);
        SideChanges(s, true, s.review.(early := Remove(s.review.early, r.op)));
        AppliesSummary(s.(review := s.review.(early := Remove(s.review.early, r.op))), r);
      }
    }
  }

  lemma AppliesSummary(s: Page, r: Arrival)
    requires Inv(s) && r in s.arrived && Names(s.summary, r.op) && r.key == s.summary.context.value.owner.key
    ensures Inv(s.(summary := s.summary.(context := None, early := Remove(s.summary.early, r.op)),
                   summaryView := ShowSummary(s.summaryView, s.summary.context.value.target, SummaryFor(r.outcome)),
                   applied := s.applied + [(Summary(s.summary.number), r)]))
  {
    RemoveShrinks(s.summary.early, r.op);
    var e := (Summary(s.summary.number), r);
    var applied := s.applied + [e];
    forall i | 0 <= i < |s.applied| ensures s.applied[i].0 != e.0 {
      assert s.applied[i] in s.applied;
    }
    forall id | id in s.tabs ensures ViewOk(s.tabs[id], true, applied) {
      ViewGrows(s.tabs[id], true, s.applied, e);
    }
    if s.summaryView.Some? {
      ViewGrows(s.summaryView.value, false, s.applied, e);
    }
    assert e in applied;
  }

  lemma ReceiveKeeps(s: Page, r: Arrival)
    requires Inv(s)
    ensures Inv(Receive(s, r))
  {
    hide Inv, AcceptReview, AcceptSummary;
    Arrives(s, r);
    var t := s.(arrived := s.arrived + [r]);
    if r.op != "" {
      if Names(t.review, r.op) {
        AcceptReviewKeeps(t, r);
        var a := AcceptReview(t, r);
        DropEarly(a, false, r.op);
      } else if Names(t.summary, r.op) {
        AcceptSummaryKeeps(t, r);
        var a := AcceptSummary(t, r);
        DropEarly(a, true, r.op);
      } else {
        var u := if Awaits(t.review, r.key) then t.(review := t.review.(early := Keep(t.review.early, r))) else t;
        if Awaits(t.review, r.key) {
          KeepEarly(t, true, r);
        }
        if Awaits(t.summary, r.key) {
          KeepEarly(u, false, r);
        }
      }
    }
  }

  lemma DropEarly(s: Page, isReview: bool, op: Op)
    requires Inv(s)
    ensures Inv(if isReview then s.(review := s.review.(early := Remove(s.review.early, op)))
                else s.(summary := s.summary.(early := Remove(s.summary.early, op))))
  {
    var side := if isReview then s.review else s.summary;
    RemoveShrinks(side.early, op);
    SideChanges(s, isReview, side.(early := Remove(side.early, op)));
  }

  lemma KeepEarly(s: Page, isReview: bool, r: Arrival)
    requires Inv(s) && r in s.arrived
    ensures Inv(if isReview then s.(review := s.review.(early := Keep(s.review.early, r)))
                else s.(summary := s.summary.(early := Keep(s.summary.early, r))))
  {
    var side := if isReview then s.review else s.summary;
    KeepAdds(side.early, r);
    SideChanges(s, isReview, side.(early := Keep(side.early, r)));
  }

  // ----- calls -----

  lemma OpenKeeps(s: Page, tab: string)
    requires Inv(s)
    ensures Inv(Open(s, tab))
  {
    assert forall id | id in s.tabs :: ViewOk(s.tabs[id], true, s.applied);
  }

  lemma RefreshKeeps(s: Page, key: string)
    requires Inv(s)
    ensures Inv(Refresh(s, key))
  {
    assert forall id | id in s.tabs :: OwnView(s.review, s.tabs[id]) && ViewOk(s.tabs[id], true, s.applied);
  }

  lemma ResumeKeeps(s: Page, isReview: bool, n: nat)
    requires Inv(s) && n in (if isReview then s.review else s.summary).frames
    ensures Inv(if isReview then s.(review := Resume(s, s.review, n)) else s.(summary := Resume(s, s.summary, n)))
  {
    var side := if isReview then s.review else s.summary;
    SideChanges(s, isReview, Resume(s, side, n));
  }

  // ----- answers -----

  /** The operation is named to its call. */
  lemma Noted(s: Page, isReview: bool, n: nat, op: Op)
    requires Inv(s) && n in (if isReview then s.review else s.summary).frames
    requires forall c | c in s.acked :: s.acked[c] != op
    ensures var t := if isReview then s.(review := s.review.(frames := s.review.frames - {n}))
                     else s.(summary := s.summary.(frames := s.summary.frames - {n}));
            Inv(t.(acked := t.acked[CallOf(isReview, n) := op]))
  {
  }

  lemma NamedReview(s: Page, n: nat, op: Op)
    requires Inv(s) && IsCurrent(s.review, n) && Review(n) in s.acked && s.acked[Review(n)] == op
    ensures Inv(s.(review := s.review.(context := Some(s.review.context.value.(op := Some(op))), early := [])))
  {
  }

  lemma NamedSummary(s: Page, n: nat, op: Op)
    requires Inv(s) && IsCurrent(s.summary, n) && Summary(n) in s.acked && s.acked[Summary(n)] == op
    ensures Inv(s.(summary := s.summary.(context := Some(s.summary.context.value.(op := Some(op))))))
  {
  }

  lemma AckReviewKeeps(s: Page, n: nat, a: Answer)
    requires Inv(s) && Enabled(s, OnAckReview(n, a))
    ensures Inv(AckReview(s, n, a))
  {
    hide Inv, AcceptReview, ShowTab;
    var f := s.review.frames[n];
    var side := s.review.(frames := s.review.frames - {n});
    EarlyArrived(s);
    SideChanges(s, true, side);
    var noted := s.(review := side, acked := if a.Answered? && a.op != "" then s.acked[Review(n) := a.op] else s.acked);
    if a.Answered? && a.op != "" {
      Noted(s, true, n, a.op);
    }
    assert Inv(noted);
    if !IsCurrent(s.review, n) || !Matches(s, f.owner) {
      if a.Answered? && a.op != "" {
        Cancels(noted, s.cancelled + {a.op});
      }
    } else if !Accepted(a, f.owner) {
      SideChanges(noted, true, side.(context := None));
      ShowFailed(noted.(review := side.(context := None)), f.target);
    } else {
      NamedReview(noted, n, a.op);
      var named := noted.(review := side.(context := Some(s.review.context.value.(op := Some(a.op))), early := []));
      FindIn(s.review.early, a.op);
      var early := Find(s.review.early, a.op);
      if early.Some? {
        AcceptReviewKeeps(named, early.value);
      }
    }
  }

  lemma EarlyArrived(s: Page)
    requires Inv(s)
    ensures (forall r | r in s.review.early :: r in s.arrived) && (forall r | r in s.summary.early :: r in s.arrived)
  {
  }

  lemma AckSummaryKeeps(s: Page, n: nat, a: Answer)
    requires Inv(s) && Enabled(s, OnAckSummary(n, a))
    ensures Inv(AckSummary(s, n, a))
  {
    hide Inv, AcceptSummary, ShowSummary;
    var f := s.summary.frames[n];
    var side := s.summary.(frames := s.summary.frames - {n});
    EarlyArrived(s);
    SideChanges(s, false, side);
    var noted := s.(summary := side, acked := if a.Answered? && a.op != "" then s.acked[Summary(n) := a.op] else s.acked);
    if a.Answered? && a.op != "" {
      Noted(s, false, n, a.op);
    }
    assert Inv(noted);
    if !IsCurrent(s.summary, n) || !Matches(s, f.owner) {
      if a.Answered? && a.op != "" {
        Cancels(noted, s.cancelled + {a.op});
      }
    } else if !Accepted(a, f.owner) {
      SideChanges(noted, false, side.(context := None));
      ShowFailed(noted.(summary := side.(context := None)), f.target);
    } else {
      NamedSummary(noted, n, a.op);
      var named := noted.(summary := side.(context := Some(s.summary.context.value.(op := Some(a.op)))));
      DropEarly(named, false, a.op);
      var dropped := named.(summary := named.summary.(early := Remove(s.summary.early, a.op)));
      DropEarly(dropped, true, a.op);
      FindIn(s.summary.early, a.op);
      var early := Find(s.summary.early, a.op);
      if early.Some? {
        AcceptSummaryKeeps(dropped.(review := dropped.review.(early := Remove(s.review.early, a.op))), early.value);
      }
    }
  }

  // ----- giving up -----

  lemma CancelReviewKeeps(s: Page)
    requires Inv(s)
    ensures Inv(CancelReview(s))
  {
    hide Inv;
    if s.review.context.Some? {
      SideChanges(s, true, s.review.(context := None, early := []));
      Cancels(s.(review := s.review.(context := None, early := [])), Abandoned(s.cancelled, s.review.context.value));
    }
  }

  lemma CancelSummaryKeeps(s: Page)
    requires Inv(s)
    ensures Inv(CancelSummary(s))
  {
    hide Inv;
    var side := s.summary.(context := None, number := s.summary.number + 1, early := []);
    SideChanges(s, false, side);
    Cancels(s.(summary := side), CancelSummary(s).cancelled);
  }

  /** Closing tabs, or showing another owner. */
  lemma ViewsLeave(s: Page, r: Page)
    requires Inv(s) && r == s.(tabs := r.tabs, summaryView := r.summaryView, owner := r.owner)
    requires forall id | id in r.tabs :: id in s.tabs && r.tabs[id] == s.tabs[id]
    requires r.summaryView.None? || r.summaryView == s.summaryView
    ensures Inv(r)
  {
  }

  lemma CloseTabKeeps(s: Page, id: string)
    requires Inv(s)
    ensures Inv(CloseTab(s, id))
  {
    hide Inv;
    CancelReviewKeeps(s);
    var r := if s.review.context.Some? && s.review.context.value.target == id && id in s.tabs then CancelReview(s) else s;
    ViewsLeave(r, CloseTab(s, id));
  }

  lemma ClosePanelKeeps(s: Page)
    requires Inv(s)
    ensures Inv(ClosePanel(s))
  {
    hide Inv;
    CancelReviewKeeps(s);
    var r := CancelReview(s);
    SideChanges(r, true, r.review.(early := []));
    ViewsLeave(r.(review := r.review.(early := [])), ClosePanel(s));
  }

  lemma EffectsKeep(s: Page)
    requires Inv(s)
    ensures Inv(ReviewEffect(s)) && Inv(SummaryEffect(s))
  {
    hide Inv;
    CancelReviewKeeps(s);
    CancelSummaryKeeps(s);
    var c := if s.review.context.Some? && !Matches(s, s.review.context.value.owner) then CancelReview(s) else s;
    ViewsLeave(c, ReviewEffect(s));
    var d := if s.summary.context.Some? && !Matches(s, s.summary.context.value.owner) then CancelSummary(s) else s;
    ViewsLeave(d, SummaryEffect(s));
  }

  // ----- every run -----

  lemma StepKeeps(s: Page, e: Event)
    requires Inv(s) && Enabled(s, e)
    ensures Inv(Step(s, e))
  {
    hide Inv;
    match e
    case OnOpen(tab) => OpenKeeps(s, tab);
    case OnRefresh(key) => RefreshKeeps(s, key);
    case OnResumeReview(n) => ResumeKeeps(s, true, n);
    case OnResumeSummary(n) => ResumeKeeps(s, false, n);
    case OnAckReview(n, a) => AckReviewKeeps(s, n, a);
    case OnAckSummary(n, a) => AckSummaryKeeps(s, n, a);
    case OnResult(r) => ReceiveKeeps(s, r);
    case OnCancelReview => CancelReviewKeeps(s);
    case OnCancelSummary => CancelSummaryKeeps(s);
    case OnCloseTab(id) => CloseTabKeeps(s, id);
    case OnClosePanel => ClosePanelKeeps(s);
    case OnOwner(owner) => ViewsLeave(s, s.(owner := owner));
    case OnReviewEffect => EffectsKeep(s);
    case OnSummaryEffect => EffectsKeep(s);
  }

  lemma {:induction false} RunKeeps(s: Page, events: seq<Event>)
    requires Inv(s) && CanRun(s, events)
    ensures Inv(Run(s, events))
    decreases |events|
  {
    hide Inv;
    if events != [] {
      StepKeeps(s, events[0]);
      RunKeeps(Step(s, events[0]), events[1..]);
    }
  }

  /** A tab that shows a result shows one that arrived for the operation named to the call that
      last opened the tab, with the key of the tab's own owner. */
  lemma TabShowsOwnResult(owner: Owner, events: seq<Event>, id: string)
    requires CanRun(Init(owner), events)
    requires var s := Run(Init(owner), events); id in s.tabs && IsResult(s.tabs[id].shown)
    ensures var s := Run(Init(owner), events);
            exists r | r in s.arrived ::
              && Review(s.tabs[id].call) in s.acked && s.acked[Review(s.tabs[id].call)] == r.op
              && r.key == s.tabs[id].owner.key && ShownFor(r.outcome) == s.tabs[id].shown
  {
    RunKeeps(Init(owner), events);
  }

  lemma SummaryShowsOwnResult(owner: Owner, events: seq<Event>)
    requires CanRun(Init(owner), events)
    requires var v := Run(Init(owner), events).summaryView; v.Some? && IsResult(v.value.shown)
    ensures var s := Run(Init(owner), events); var v := s.summaryView.value;
            exists r | r in s.arrived ::
              && Summary(v.call) in s.acked && s.acked[Summary(v.call)] == r.op
              && r.key == v.owner.key && ShownFor(r.outcome) == v.shown
  {
    RunKeeps(Init(owner), events);
  }

  /** No operation is shown twice: not by both contexts, and not by one of them again. */
  lemma ShownOnce(owner: Owner, events: seq<Event>, i: nat, j: nat)
    requires CanRun(Init(owner), events)
    requires i < j < |Run(Init(owner), events).applied|
    ensures var log := Run(Init(owner), events).applied; log[i].1.op != log[j].1.op
  {
    RunKeeps(Init(owner), events);
    var s := Run(Init(owner), events);
    assert s.applied[i] in s.applied && s.applied[j] in s.applied;
  }

  /** The call that shows a result is the last one of its side. */
  predicate LastCall(s: Page, call: Call) {
    match call
    case Review(n) => n == s.review.number && s.review.context.Some? && Matches(s, s.review.context.value.owner)
    case Summary(n) => n == s.summary.number && s.summary.context.Some? && Matches(s, s.summary.context.value.owner)
  }

  /** At most one result is shown from `s` to `r`, and only for the last call of a side, whose
      owner is the one the page shows. */
  predicate ShowsOnlyLastCall(s: Page, r: Page) {
    r.applied == s.applied
    || (|r.applied| == |s.applied| + 1 && r.applied[..|s.applied|] == s.applied && LastCall(s, r.applied[|s.applied|].0))
  }

  /** Whatever the step. */
  lemma OnlyLastCallShows(s: Page, e: Event)
    requires Inv(s) && Enabled(s, e)
    ensures ShowsOnlyLastCall(s, Step(s, e))
  {
    hide Inv, AcceptReview, AcceptSummary;
    match e
    case OnAckReview(n, a) => AckReviewShows(s, n, a);
    case OnAckSummary(n, a) => AckSummaryShows(s, n, a);
    case OnResult(r) => ReceiveShows(s, r);
    case _ =>
  }

  lemma ReceiveShows(s: Page, r: Arrival)
    requires Inv(s)
    ensures ShowsOnlyLastCall(s, Receive(s, r))
  {
    hide Inv, AcceptReview, AcceptSummary;
    Arrives(s, r);
    var t := s.(arrived := s.arrived + [r]);
    AcceptReviewKeeps(t, r);
    AcceptSummaryKeeps(t, r);
  }

  lemma AckReviewShows(s: Page, n: nat, a: Answer)
    requires Inv(s) && Enabled(s, OnAckReview(n, a))
    ensures ShowsOnlyLastCall(s, AckReview(s, n, a))
  {
  }

  lemma AckSummaryShows(s: Page, n: nat, a: Answer)
    requires Inv(s) && Enabled(s, OnAckSummary(n, a))
    ensures ShowsOnlyLastCall(s, AckSummary(s, n, a))
  {
  }
}
