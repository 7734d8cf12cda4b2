/** How a call of either view begins: it supersedes the call before it, whose operation is cancelled
    first, and it asks the backend for its own operation exactly if it is still the current one. */
module DiffBegins {
  import opened Wrappers
  import opened DiffModel
  import opened DiffOrder
  import opened DiffShown

  function Kickoff(isReview: bool, n: nat, a: Answer): Event {
    if isReview then OnAckReview(n, a) else OnAckSummary(n, a)
  }

  function Resumption(isReview: bool, n: nat): Event {
    if isReview then OnResumeReview(n) else OnResumeSummary(n)
  }

  function SideOf(s: Page, isReview: bool): Side {
    if isReview then s.review else s.summary
  }

  function AwaitedBy(side: Side): set<Op> {
    if side.context.Some? && side.context.value.op.Some? then {side.context.value.op.value} else {}
  }

  /** The call `n` may be answered: it has asked. */
  predicate CanAnswer(s: Page, isReview: bool, n: nat) {
    Enabled(s, Kickoff(isReview, n, Threw))
  }

  /** Where a call has just begun: it is new, its buffer is empty, and it may be answered at once if
      no operation was awaited; otherwise that one is cancelled, and only the answer to the
      cancellation lets the call ask. */
  predicate Begins(s: Page, t: Page, isReview: bool, c: Context) {
    var was := AwaitedBy(SideOf(s, isReview));
    && c.number > SideOf(s, isReview).number && c.op.None? && s.owner == Some(c.owner)
    && SideOf(t, isReview).early == [] && t.cancelled == s.cancelled + was
    && SideOf(t, !isReview) == SideOf(s, !isReview) && t.acked == s.acked && t.applied == s.applied
    && (CanAnswer(t, isReview, c.number) <==> was == {})
    && (Enabled(t, Resumption(isReview, c.number)) <==> was != {})
  }

  /** From every page that shows an owner: the tab is opened, and waits; the other tabs stay. */
  lemma OpenBegins(s: Page, tab: string)
    requires s.owner.Some?
    ensures var c, t := Context(s.review.number + 1, None, s.owner.value, tab), Step(s, OnOpen(tab));
            && Waits(t, c) && Begins(s, t, true, c) && t.summaryView == s.summaryView
            && forall id | id != tab :: (id in t.tabs <==> id in s.tabs) && (id in s.tabs ==> t.tabs[id] == s.tabs[id])
  {
  }

  /** The same for the summary. */
  lemma RefreshBegins(s: Page, key: string)
    requires s.owner.Some?
    ensures var c, t := Context(s.summary.number + 1, None, s.owner.value, key), Step(s, OnRefresh(key));
            SummaryWaits(t, c) && Begins(s, t, false, c) && t.tabs == s.tabs
  {
  }

  lemma NoOwnerNoCall(s: Page, name: string)
    requires s.owner.None?
    ensures Step(s, OnOpen(name)) == s && Step(s, OnRefresh(name)) == s
  {
  }

  /** The answer to the cancellation lets a call ask exactly if it is still the current one and its
      owner is still shown; nothing else changes. */
  lemma AsksIffCurrent(s: Page, isReview: bool, n: nat)
    requires Enabled(s, Resumption(isReview, n))
    ensures var side, t := SideOf(s, isReview), Step(s, Resumption(isReview, n));
            && (CanAnswer(t, isReview, n) <==>
                  side.context.Some? && side.context.value.number == n && s.owner == Some(side.frames[n].owner))
            && !Enabled(t, Resumption(isReview, n))
            && t == (if isReview then s.(review := side.(frames := t.review.frames)) else s.(summary := side.(frames := t.summary.frames)))
            && forall k | k != n ::
                 && (k in SideOf(t, isReview).frames <==> k in side.frames)
                 && (k in side.frames ==> SideOf(t, isReview).frames[k] == side.frames[k])
  {
  }

  /** A call that is no longer the current one and has not asked yet. */
  predicate Superseded(s: Page, isReview: bool, n: nat) {
    var side := SideOf(s, isReview);
    && n <= side.number && !IsCurrent(side, n) && (side.context.Some? ==> side.context.value.number == side.number)
    && (n in side.frames ==> side.frames[n].phase.Cancelling?)
  }

  /** What a result or an answer may do to a side: only its context may go, or be named. */
  predicate Narrows(was: Side, now: Side) {
    && now.number == was.number && now.frames.Keys <= was.frames.Keys && (forall k | k in now.frames :: now.frames[k] == was.frames[k])
    && (now.context.Some? ==> was.context.Some? && now.context.value.number == was.context.value.number)
  }

  lemma ReviewTakenNarrows(s: Page, r: Arrival)
    ensures Narrows(s.review, AcceptReview(s, r).review) && AcceptReview(s, r).summary == s.summary
  {
  }

  lemma SummaryTakenNarrows(s: Page, r: Arrival)
    ensures var t := AcceptSummary(s, r); Narrows(s.summary, t.summary) && t.review == s.review.(early := t.review.early)
  {
  }

  lemma ResultNarrows(s: Page, r: Arrival)
    ensures Narrows(s.review, Receive(s, r).review) && Narrows(s.summary, Receive(s, r).summary)
  {
    hide AcceptReview, AcceptSummary;
    var come := s.(arrived := s.arrived + [r]);
    ReviewTakenNarrows(come, r);
    SummaryTakenNarrows(come, r);
  }

  lemma ReviewNarrows(s: Page, n: nat, a: Answer)
    requires n in s.review.frames
    ensures var t := AckReview(s, n, a); Narrows(s.review, t.review) && t.summary == s.summary
  {
    hide AcceptReview;
    var noted := NoteReview(s, n, a);
    if noted.review.context.Some? && a.Answered? {
      var named := noted.(review := noted.review.(context := Some(noted.review.context.value.(op := Some(a.op))), early := []));
      var early := Find(s.review.early, a.op);
      if early.Some? {
        ReviewTakenNarrows(named, early.value);
      }
    }
  }

  lemma SummaryNarrows(s: Page, n: nat, a: Answer)
    requires n in s.summary.frames
    ensures var t := AckSummary(s, n, a); Narrows(s.review, t.review) && Narrows(s.summary, t.summary)
  {
    hide AcceptSummary;
    var noted := NoteSummary(s, n, a);
    if noted.summary.context.Some? && a.Answered? {
      var named := noted.(summary := noted.summary.(context := Some(noted.summary.context.value.(op := Some(a.op))),
                                                    early := Remove(noted.summary.early, a.op)),
                          review := noted.review.(early := Remove(noted.review.early, a.op)));
      var early := Find(noted.summary.early, a.op);
      if early.Some? {
        SummaryTakenNarrows(named, early.value);
      }
    }
  }

  lemma StepSuperseded(s: Page, isReview: bool, n: nat, e: Event)
    requires Superseded(s, isReview, n) && Enabled(s, e)
    ensures Superseded(Step(s, e), isReview, n)
  {
    hide Receive, AckReview, AckSummary;
    match e
    case OnResult(r) => ResultNarrows(s, r);
    case OnAckReview(k, a) => ReviewNarrows(s, k, a);
    case OnAckSummary(k, a) => SummaryNarrows(s, k, a);
    case _ =>
  }

  /** A call superseded while it waits for the cancellation never asks the backend for anything:
      whatever happens, there is never a kickoff of it to be answered. */
  lemma {:induction false} SupersededNeverAsks(s: Page, isReview: bool, n: nat, events: seq<Event>)
    requires Superseded(s, isReview, n) && CanRun(s, events)
    ensures forall i | 0 <= i < |events| :: !(exists a :: events[i] == Kickoff(isReview, n, a))
    decreases |events|
  {
    if events != [] {
      StepSuperseded(s, isReview, n, events[0]);
      SupersededNeverAsks(Step(s, events[0]), isReview, n, events[1..]);
      forall i | 0 <= i < |events| ensures !(exists a :: events[i] == Kickoff(isReview, n, a)) {
        if i > 0 {
          assert events[i] == events[1..][i - 1];
        }
      }
    }
  }
}
