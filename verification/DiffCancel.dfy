/** No operation is left running unseen: each one that was named to a call is still awaited, has sent
    its result, was refused, or has been cancelled; and none is cancelled while it is awaited. */
module DiffCancel {
  import opened DiffModel
  import opened DiffSafety

  /** The operation of an answer that the current call refuses. */
  function Refused(s: Page, side: Side, n: nat, a: Answer): set<Op> {
    if n in side.frames && IsCurrent(side, n) && Matches(s, side.frames[n].owner) && a.Answered? && !Accepted(a, side.frames[n].owner)
    then {a.op} else {}
  }

  function NewlyRefused(s: Page, e: Event): set<Op> {
    match e
    case OnAckReview(n, a) => Refused(s, s.review, n, a)
    case OnAckSummary(n, a) => Refused(s, s.summary, n, a)
    case _ => {}
  }

  /** All operations refused in a run. */
  function AllRefused(s: Page, refused: set<Op>, events: seq<Event>): set<Op>
    requires CanRun(s, events)
    decreases |events|
  {
    if events == [] then refused
    else AllRefused(Step(s, events[0]), refused + NewlyRefused(s, events[0]), events[1..])
  }

  predicate Awaited(s: Page, op: Op) {
    Names(s.review, op) || Names(s.summary, op)
  }

  predicate HasArrived(s: Page, op: Op) {
    exists r | r in s.arrived :: r.op == op
  }

  predicate WasNamed(s: Page, op: Op) {
    exists c | c in s.acked :: s.acked[c] == op
  }

  /** Every operation named to a call is accounted for. */
  predicate Settled(s: Page, refused: set<Op>) {
    forall c | c in s.acked ::
      Awaited(s, s.acked[c]) || HasArrived(s, s.acked[c]) || s.acked[c] in s.cancelled || s.acked[c] in refused
  }

  /** Only named operations are cancelled, and none that is awaited. */
  predicate CancelledOk(s: Page) {
    forall op | op in s.cancelled :: WasNamed(s, op) && !Awaited(s, op)
  }

  predicate CancelOk(s: Page, refused: set<Op>) {
    Settled(s, refused) && CancelledOk(s)
  }

  /** What a step may do: the operations named are the same, and one that is awaited no longer has
      arrived or been cancelled; what is newly cancelled was awaited, and is so no longer. */
  predicate LetsGo(s: Page, r: Page) {
    && r.acked == s.acked && s.cancelled <= r.cancelled
    && (forall x | x in s.arrived :: x in r.arrived)
    && (forall c | c in s.acked && Awaited(s, s.acked[c]) && !Awaited(r, s.acked[c]) :: HasArrived(r, s.acked[c]) || s.acked[c] in r.cancelled)
    && (forall op | op in r.cancelled && op !in s.cancelled :: Awaited(s, op) && !Awaited(r, op))
  }

  lemma LetGo(s: Page, r: Page, refused: set<Op>)
    requires Inv(s) && CancelOk(s, refused) && LetsGo(s, r)
    requires forall op :: Awaited(r, op) ==> Awaited(s, op)
    ensures CancelOk(r, refused)
  {
    forall c | c in r.acked
      ensures Awaited(r, r.acked[c]) || HasArrived(r, r.acked[c]) || r.acked[c] in r.cancelled || r.acked[c] in refused
    {
      if HasArrived(s, s.acked[c]) {
        var x :| x in s.arrived && x.op == s.acked[c];
        assert x in r.arrived;
      }
    }
    forall op | op in r.cancelled ensures WasNamed(r, op) && !Awaited(r, op) {
      if op !in s.cancelled {
        AwaitedIsNamed(s, op);
      }
    }
  }

  lemma AwaitedIsNamed(s: Page, op: Op)
    requires Inv(s) && Awaited(s, op)
    ensures WasNamed(s, op)
  {
    if Names(s.review, op) {
      assert Review(s.review.number) in s.acked;
    } else {
      assert Summary(s.summary.number) in s.acked;
    }
  }

  // ----- the steps -----

  /** A context stays, or is given up because the result of its operation has come. */
  predicate GivenUp(s: Side, t: Side, op: Op) {
    t.context == s.context || (t.context.None? && Names(s, op))
  }

  lemma ReceiveContexts(s: Page, r: Arrival)
    ensures var t := Receive(s, r);
            && t.acked == s.acked && t.cancelled == s.cancelled && t.arrived == s.arrived + [r]
            && GivenUp(s.review, t.review, r.op) && GivenUp(s.summary, t.summary, r.op)
  {
    hide Keep, Remove, ShownFor, SummaryFor, ShowTab, ShowSummary;
  }

  lemma ResultLetsGo(s: Page, r: Arrival)
    ensures var t := Receive(s, r); LetsGo(s, t) && forall op :: Awaited(t, op) ==> Awaited(s, op)
  {
    hide Receive;
    ReceiveContexts(s, r);
    assert r in Receive(s, r).arrived;
  }

  lemma OpenLetsGo(s: Page, tab: string)
    requires Inv(s)
    ensures var t := Open(s, tab); LetsGo(s, t) && forall op :: Awaited(t, op) ==> Awaited(s, op)
  {
    NotBoth(s);
  }

  lemma RefreshLetsGo(s: Page, key: string)
    requires Inv(s)
    ensures var t := Refresh(s, key); LetsGo(s, t) && forall op :: Awaited(t, op) ==> Awaited(s, op)
  {
    NotBoth(s);
  }

  /** The two sides never await the same operation. */
  lemma NotBoth(s: Page)
    requires Inv(s)
    ensures forall op :: !(Names(s.review, op) && Names(s.summary, op))
  {
    assert s.review.context.Some? && s.review.context.value.op.Some? ==> Review(s.review.number) in s.acked;
    assert s.summary.context.Some? && s.summary.context.value.op.Some? ==> Summary(s.summary.number) in s.acked;
  }

  lemma CancelReviewLetsGo(s: Page)
    requires Inv(s)
    ensures var t := CancelReview(s); LetsGo(s, t) && forall op :: Awaited(t, op) ==> Awaited(s, op)
  {
    NotBoth(s);
    hide Inv;
  }

  lemma CancelSummaryLetsGo(s: Page)
    requires Inv(s)
    ensures var t := CancelSummary(s); LetsGo(s, t) && forall op :: Awaited(t, op) ==> Awaited(s, op)
  {
    NotBoth(s);
    hide Inv;
  }

  /** Tabs, views, buffers and the owner do not matter. */
  lemma ViewsLetGo(s: Page, r: Page, t: Page)
    requires LetsGo(s, r) && (forall op :: Awaited(r, op) ==> Awaited(s, op))
    requires t == r.(tabs := t.tabs, summaryView := t.summaryView, owner := t.owner, review := t.review, summary := t.summary)
    requires t.review.context == r.review.context && t.summary.context == r.summary.context
    ensures LetsGo(s, t) && forall op :: Awaited(t, op) ==> Awaited(s, op)
  {
    assert forall op :: Awaited(t, op) == Awaited(r, op);
    assert forall op :: HasArrived(t, op) == HasArrived(r, op);
  }

  lemma StaysLetGo(s: Page)
    ensures LetsGo(s, s) && forall op :: Awaited(s, op) ==> Awaited(s, op)
  {
  }

  lemma OtherLetsGo(s: Page, e: Event)
    requires Inv(s) && Enabled(s, e) && !e.OnAckReview? && !e.OnAckSummary?
    ensures var t := Step(s, e); LetsGo(s, t) && forall op :: Awaited(t, op) ==> Awaited(s, op)
  {
    hide Inv, LetsGo, Awaited;
    StaysLetGo(s);
    CancelReviewLetsGo(s);
    CancelSummaryLetsGo(s);
    var t := Step(s, e);
    match e
    case OnOpen(tab) => OpenLetsGo(s, tab);
    case OnRefresh(key) => RefreshLetsGo(s, key);
    case OnResult(r) => ResultLetsGo(s, r);
    case OnCancelReview =>
    case OnCancelSummary =>
    case OnCloseTab(id) =>
      var drops := s.review.context.Some? && s.review.context.value.target == id && id in s.tabs;
      ViewsLetGo(s, if drops then CancelReview(s) else s, t);
    case OnClosePanel => ViewsLetGo(s, CancelReview(s), t);
    case OnReviewEffect =>
      ViewsLetGo(s, if s.review.context.Some? && !Matches(s, s.review.context.value.owner) then CancelReview(s) else s, t);
    case OnSummaryEffect =>
      ViewsLetGo(s, if s.summary.context.Some? && !Matches(s, s.summary.context.value.owner) then CancelSummary(s) else s, t);
    case _ => ViewsLetGo(s, s, t);
  }

  // ----- the answers -----

  /** The operation of an answer is new; it is awaited, has arrived, is cancelled or is refused. */
  predicate AnswerOk(s: Page, t: Page, call: Call, a: Answer, refused: set<Op>) {
    && t.acked == (if a.Answered? && a.op != "" then s.acked[call := a.op] else s.acked)
    && s.cancelled <= t.cancelled <= s.cancelled + (if a.Answered? && a.op != "" then {a.op} else {})
    && t.arrived == s.arrived
    && (forall c | c in s.acked && Awaited(s, s.acked[c]) :: Awaited(t, s.acked[c]))
    && (a.Answered? && a.op != "" ==>
          (if a.op in t.cancelled then !Awaited(t, a.op) else Awaited(t, a.op) || HasArrived(t, a.op) || a.op in refused))
  }

  lemma AnswerKeeps(s: Page, t: Page, call: Call, a: Answer, refused: set<Op>, more: set<Op>)
    requires Inv(s) && CancelOk(s, refused) && FreshAnswer(s, a) && call !in s.acked && AnswerOk(s, t, call, a, more)
    requires forall op | Awaited(t, op) :: Awaited(s, op) || (a.Answered? && op == a.op)
    ensures CancelOk(t, refused + more)
  {
    forall c | c in t.acked
      ensures Awaited(t, t.acked[c]) || HasArrived(t, t.acked[c]) || t.acked[c] in t.cancelled || t.acked[c] in refused + more
    {
      if c in s.acked {
        assert HasArrived(s, s.acked[c]) ==> HasArrived(t, s.acked[c]);
      }
    }
    forall op | op in t.cancelled ensures WasNamed(t, op) && !Awaited(t, op) {
      if op in s.cancelled {
        var c :| c in s.acked && s.acked[c] == op;
        assert c in t.acked && t.acked[c] == op;
      } else {
        assert call in t.acked && t.acked[call] == op;
      }
    }
  }

  /** The current call is not named yet while its answer is awaited. */
  lemma StillUnnamed(s: Page, isReview: bool, n: nat)
    requires Inv(s) && n in (if isReview then s.review else s.summary).frames
    requires IsCurrent(if isReview then s.review else s.summary, n)
    ensures (if isReview then s.review else s.summary).context.value.op.None? && CallOf(isReview, n) !in s.acked
  {
  }

  /** What becomes of the review's context when its answer comes. */
  lemma AckReviewContexts(s: Page, n: nat, a: Answer)
    requires n in s.review.frames
    ensures var t := AckReview(s, n, a);
            && t.acked == (if a.Answered? && a.op != "" then s.acked[Review(n) := a.op] else s.acked)
            && t.arrived == s.arrived && t.summary.context == s.summary.context
            && (if !IsCurrent(s.review, n) || !Matches(s, s.review.frames[n].owner) then
                  t.review.context == s.review.context && t.cancelled == (if a.Answered? && a.op != "" then s.cancelled + {a.op} else s.cancelled)
                else
                  t.cancelled == s.cancelled
                  && (if !Accepted(a, s.review.frames[n].owner) then t.review.context.None?
                      else Names(t.review, a.op) || (t.review.context.None? && exists r | r in s.review.early :: r.op == a.op)))
  {
    FindIn(s.review.early, if a.Answered? then a.op else "");
    hide Remove, ShownFor, ShowTab;
  }

  lemma AckReviewOk(s: Page, n: nat, a: Answer)
    requires Inv(s) && Enabled(s, OnAckReview(n, a)) && CancelledOk(s)
    ensures var t := AckReview(s, n, a);
            && AnswerOk(s, t, Review(n), a, NewlyRefused(s, OnAckReview(n, a)))
            && forall op | Awaited(t, op) :: Awaited(s, op) || (a.Answered? && op == a.op)
  {
    if IsCurrent(s.review, n) {
      StillUnnamed(s, true, n);
    }
    FreshIsNew(s, a);
    EarlyArrived(s);
    AckReviewContexts(s, n, a);
    hide Inv, CancelledOk, WasNamed, AckReview;
    var t := AckReview(s, n, a);
    if r :| r in s.review.early && r.op == (if a.Answered? then a.op else "") {
      assert HasArrived(t, r.op);
    }
  }

  /** What becomes of the summary's context when its answer comes. */
  lemma AckSummaryContexts(s: Page, n: nat, a: Answer)
    requires n in s.summary.frames
    ensures var t := AckSummary(s, n, a);
            && t.acked == (if a.Answered? && a.op != "" then s.acked[Summary(n) := a.op] else s.acked)
            && t.arrived == s.arrived && t.review.context == s.review.context
            && (if !IsCurrent(s.summary, n) || !Matches(s, s.summary.frames[n].owner) then
                  t.summary.context == s.summary.context && t.cancelled == (if a.Answered? && a.op != "" then s.cancelled + {a.op} else s.cancelled)
                else
                  t.cancelled == s.cancelled
                  && (if !Accepted(a, s.summary.frames[n].owner) then t.summary.context.None?
                      else Names(t.summary, a.op) || (t.summary.context.None? && exists r | r in s.summary.early :: r.op == a.op)))
  {
    FindIn(s.summary.early, if a.Answered? then a.op else "");
    hide Remove, SummaryFor, ShowSummary;
  }

  lemma AckSummaryOk(s: Page, n: nat, a: Answer)
    requires Inv(s) && Enabled(s, OnAckSummary(n, a)) && CancelledOk(s)
    ensures var t := AckSummary(s, n, a);
            && AnswerOk(s, t, Summary(n), a, NewlyRefused(s, OnAckSummary(n, a)))
            && forall op | Awaited(t, op) :: Awaited(s, op) || (a.Answered? && op == a.op)
  {
    if IsCurrent(s.summary, n) {
      StillUnnamed(s, false, n);
    }
    FreshIsNew(s, a);
    EarlyArrived(s);
    AckSummaryContexts(s, n, a);
    hide Inv, CancelledOk, WasNamed, AckSummary;
    var t := AckSummary(s, n, a);
    if r :| r in s.summary.early && r.op == (if a.Answered? then a.op else "") {
      assert HasArrived(t, r.op);
    }
  }

  /** A new operation is not awaited and not cancelled. */
  lemma FreshIsNew(s: Page, a: Answer)
    requires Inv(s) && CancelledOk(s) && FreshAnswer(s, a)
    ensures a.Answered? ==> !Awaited(s, a.op) && a.op !in s.cancelled
  {
    if a.Answered? && Awaited(s, a.op) {
      AwaitedIsNamed(s, a.op);
    }
  }

  lemma StepCancels(s: Page, refused: set<Op>, e: Event)
    requires Inv(s) && CancelOk(s, refused) && Enabled(s, e)
    ensures CancelOk(Step(s, e), refused + NewlyRefused(s, e))
  {
    match e
    case OnAckReview(n, a) =>
      AckReviewOk(s, n, a);
      FrameUnnamed(s, true, n);
      AnswerKeeps(s, AckReview(s, n, a), Review(n), a, refused, NewlyRefused(s, e));
    case OnAckSummary(n, a) =>
      AckSummaryOk(s, n, a);
      FrameUnnamed(s, false, n);
      AnswerKeeps(s, AckSummary(s, n, a), Summary(n), a, refused, NewlyRefused(s, e));
    case _ =>
      OtherLetsGo(s, e);
      LetGo(s, Step(s, e), refused);
      assert refused + {} == refused;
  }

  lemma FrameUnnamed(s: Page, isReview: bool, n: nat)
    requires Inv(s) && n in (if isReview then s.review else s.summary).frames
    ensures CallOf(isReview, n) !in s.acked
  {
  }

  lemma {:induction false} RunCancels(s: Page, refused: set<Op>, events: seq<Event>)
    requires Inv(s) && CancelOk(s, refused) && CanRun(s, events)
    ensures CancelOk(Run(s, events), AllRefused(s, refused, events))
    decreases |events|
  {
    hide Inv, CancelOk, Step, NewlyRefused;
    if events != [] {
      StepKeeps(s, events[0]);
      StepCancels(s, refused, events[0]);
      RunCancels(Step(s, events[0]), refused + NewlyRefused(s, events[0]), events[1..]);
    }
  }

  /** In every run: each operation that was named to a call is still awaited by the call that is
      current, has sent its result, was refused by the current call, or has been cancelled. So one
      whose call was superseded, or given up, is cancelled unless its result came first. And an
      operation that is awaited is never cancelled. */
  lemma SupersededIsCancelled(owner: Owner, events: seq<Event>)
    requires CanRun(Init(owner), events)
    ensures var s := Run(Init(owner), events);
            && (forall c | c in s.acked ::
                  Awaited(s, s.acked[c]) || HasArrived(s, s.acked[c]) || s.acked[c] in s.cancelled
                  || s.acked[c] in AllRefused(Init(owner), {}, events))
            && (forall op | op in s.cancelled :: WasNamed(s, op) && !Awaited(s, op))
  {
    RunCancels(Init(owner), {}, events);
  }
}
