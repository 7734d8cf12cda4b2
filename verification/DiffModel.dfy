/** The two users of workspace-diff operations in App.tsx: the review tab (openWorkspaceDiff) and
    the summary (refreshWorkspaceDiffSummary). A result event may arrive before the answer that
    names its operation. Values and steps. */
module DiffModel {
  import opened Wrappers

  type Op = string

  /** Whose view it is: the project key, and everything else the page compares. */
  datatype Owner = Owner(key: string, view: nat)

  datatype Outcome = Completed(diff: Option<string>) | Cancelled | Stale | Failed | OtherState

  /** A `workspace_diff_result` event; a completed one whose diff is malformed has none. */
  datatype Arrival = Arrival(op: Op, key: string, outcome: Outcome)

  datatype Shown = Reviewing | ShowsDiff(diff: string) | ShowsCancelled | ShowsStale | ShowsFailed

  /** `target` is the tab's id or the summary's request key. */
  datatype Context = Context(number: nat, op: Option<Op>, owner: Owner, target: string)

  /** A tab or the summary, and the number of the call that began it. */
  datatype View = View(owner: Owner, target: string, call: nat, shown: Shown)

  /** A call between two awaits: it cancels the operation before it, or waits for its answer. */
  datatype Phase = Cancelling | Asked

  datatype Frame = Frame(owner: Owner, target: string, phase: Phase)

  // ----- early results: a map in insertion order, at most four entries -----

  type Buffer = seq<Arrival>

  function Remove(b: Buffer, op: Op): Buffer {
    if b == [] then [] else if b[0].op == op then Remove(b[1..], op) else [b[0]] + Remove(b[1..], op)
  }

  function Find(b: Buffer, op: Op): Option<Arrival> {
    if b == [] then None else if b[0].op == op then Some(b[0]) else Find(b[1..], op)
  }

  /** `Map.set`: an entry keeps its place. */
  function Put(b: Buffer, r: Arrival): Buffer {
    if b == [] then [r] else if b[0].op == r.op then [r] + b[1..] else [b[0]] + Put(b[1..], r)
  }

  function Keep(b: Buffer, r: Arrival): Buffer {
    Put(if |b| >= 4 then b[1..] else b, r)
  }

  // ----- the state -----

  datatype Side = Side(context: Option<Context>, number: nat, early: Buffer, frames: map<nat, Frame>)

  datatype Call = Review(number: nat) | Summary(number: nat)

  /** `owner` is what the page shows now, none once it is gone. `acked`, `arrived` and `applied`
      only record what happened: operations named to calls, results received, results shown. */
  datatype Page = Page(
    owner: Option<Owner>,
    review: Side,
    summary: Side,
    tabs: map<string, View>,
    summaryView: Option<View>,
    cancelled: set<Op>,
    acked: map<Call, Op>,
    arrived: seq<Arrival>,
    applied: seq<(Call, Arrival)>)

  const NO_SIDE := Side(None, 0, [], map[])

  function Init(owner: Owner): Page {
    Page(Some(owner), NO_SIDE, NO_SIDE, map[], None, {}, map[], [], [])
  }

  predicate Matches(s: Page, owner: Owner) {
    s.owner == Some(owner)
  }

  predicate IsCurrent(side: Side, number: nat) {
    side.context.Some? && side.context.value.number == number
  }

  // ----- what is shown -----

  function ShownFor(outcome: Outcome): Shown {
    match outcome
    case Completed(diff) => if diff.Some? then ShowsDiff(diff.value) else ShowsFailed
    case Cancelled => ShowsCancelled
    case Stale => ShowsStale
    case _ => ShowsFailed
  }

  /** The summary has no states of its own for a cancelled or stale diff. */
  function SummaryFor(outcome: Outcome): Shown {
    if outcome.Completed? then ShownFor(outcome) else ShowsFailed
  }

  function ShowTab(tabs: map<string, View>, id: string, shown: Shown): map<string, View> {
    if id in tabs then tabs[id := tabs[id].(shown := shown)] else tabs
  }

  function ShowSummary(view: Option<View>, key: string, shown: Shown): Option<View> {
    if view.Some? && view.value.target == key then Some(view.value.(shown := shown)) else view
  }

  // ----- results -----

  function AcceptReview(s: Page, r: Arrival): Page {
    if s.review.context.None? || s.review.context.value.op != Some(r.op) then s
    else
      var c := s.review.context.value;
      var off := s.(review := s.review.(context := None));
      if !Matches(s, c.owner) then off
      else if r.key != c.owner.key then off.(tabs := ShowTab(s.tabs, c.target, ShowsFailed))
      else if r.outcome.OtherState? then s
      else
        off.(review := off.review.(early := Remove(s.review.early, r.op)),
             tabs := ShowTab(s.tabs, c.target, ShownFor(r.outcome)),
             applied := s.applied + [(Review(c.number), r)])
  }

  function AcceptSummary(s: Page, r: Arrival): Page {
    if s.summary.context.None? || s.summary.context.value.op != Some(r.op) then s
    else
      var c := s.summary.context.value;
      var off := s.(summary := s.summary.(context := None));
      if !Matches(s, c.owner) then off
      else if r.key != c.owner.key then off.(summaryView := ShowSummary(s.summaryView, c.target, ShowsFailed))
      else if r.outcome.OtherState? then s
      else
        off.(summary := off.summary.(early := Remove(s.summary.early, r.op)),
             review := s.review.(early := Remove(s.review.early, r.op)),
             summaryView := ShowSummary(s.summaryView, c.target, SummaryFor(r.outcome)),
             applied := s.applied + [(Summary(c.number), r)])
  }

  predicate Awaits(side: Side, key: string) {
    side.context.Some? && side.context.value.op.None? && side.context.value.owner.key == key
  }

  predicate Names(side: Side, op: Op) {
    side.context.Some? && side.context.value.op == Some(op)
  }

  function Dispatch(s: Page, r: Arrival): Page {
    if r.op == "" then s
    else if Names(s.review, r.op) then
      var a := AcceptReview(s, r);
      a.(summary := a.summary.(early := Remove(a.summary.early, r.op)))
    else if Names(s.summary, r.op) then
      var a := AcceptSummary(s, r);
      a.(review := a.review.(early := Remove(a.review.early, r.op)))
    else
      s.(review := if Awaits(s.review, r.key) then s.review.(early := Keep(s.review.early, r)) else s.review,
         summary := if Awaits(s.summary, r.key) then s.summary.(early := Keep(s.summary.early, r)) else s.summary)
  }

  /** receiveWorkspaceDiffEvent. */
  function Receive(s: Page, r: Arrival): Page {
    Dispatch(s.(arrived := s.arrived + [r]), r)
  }

  // ----- starting -----

  /** An operation of the call before is cancelled first. */
  function CancelFirst(cancelled: set<Op>, previous: Option<Context>): set<Op> {
    if previous.Some? && previous.value.op.Some? then cancelled + {previous.value.op.value} else cancelled
  }

  function FirstPhase(previous: Option<Context>): Phase {
    if previous.Some? && previous.value.op.Some? then Cancelling else Asked
  }

  /** A new call becomes the current one, with nothing buffered. */
  function Opened(side: Side, owner: Owner, target: string): Side {
    var n := side.number + 1;
    Side(Some(Context(n, None, owner, target)), n, [], side.frames[n := Frame(owner, target, FirstPhase(side.context))])
  }

  /** openWorkspaceDiff up to its first await. */
  function Open(s: Page, tab: string): Page {
    if s.owner.None? then s
    else
      s.(review := Opened(s.review, s.owner.value, tab),
         tabs := s.tabs[tab := View(s.owner.value, tab, s.review.number + 1, Reviewing)],
         cancelled := CancelFirst(s.cancelled, s.review.context))
  }

  function Refresh(s: Page, key: string): Page {
    if s.owner.None? then s
    else
      s.(summary := Opened(s.summary, s.owner.value, key),
         summaryView := Some(View(s.owner.value, key, s.summary.number + 1, Reviewing)),
         cancelled := CancelFirst(s.cancelled, s.summary.context))
  }

  /** The cancellation is answered, or has failed: ask, unless superseded. */
  function Resume(s: Page, side: Side, n: nat): Side
    requires n in side.frames
  {
    if !IsCurrent(side, n) || !Matches(s, side.frames[n].owner) then side.(frames := side.frames - {n})
    else side.(frames := side.frames[n := side.frames[n].(phase := Asked)])
  }

  // ----- the answer to the kickoff -----

  datatype Answer = Answered(op: Op, key: string, reviewing: bool) | Threw

  predicate Accepted(a: Answer, owner: Owner) {
    a.Answered? && a.op != "" && a.key == owner.key && a.reviewing
  }

  /** The call is over, and its operation is known. */
  function NoteReview(s: Page, n: nat, a: Answer): Page {
    s.(review := s.review.(frames := s.review.frames - {n}),
       acked := if a.Answered? && a.op != "" then s.acked[Review(n) := a.op] else s.acked)
  }

  function NoteSummary(s: Page, n: nat, a: Answer): Page {
    s.(summary := s.summary.(frames := s.summary.frames - {n}),
       acked := if a.Answered? && a.op != "" then s.acked[Summary(n) := a.op] else s.acked)
  }

  /** The operation of a superseded call is cancelled. */
  function CancelLate(s: Page, a: Answer): Page {
    if a.Answered? && a.op != "" then s.(cancelled := s.cancelled + {a.op}) else s
  }

  function ContinueReview(s: Page, n: nat, f: Frame, a: Answer): Page {
    if !IsCurrent(s.review, n) || !Matches(s, f.owner) then CancelLate(s, a)
    else if !Accepted(a, f.owner) then
      s.(review := s.review.(context := None), tabs := ShowTab(s.tabs, f.target, ShowsFailed))
    else
      var named := s.(review := s.review.(context := Some(s.review.context.value.(op := Some(a.op))), early := []));
      var early := Find(s.review.early, a.op);
      if early.Some? then AcceptReview(named, early.value) else named
  }

  function ContinueSummary(s: Page, n: nat, f: Frame, a: Answer): Page {
    if !IsCurrent(s.summary, n) || !Matches(s, f.owner) then CancelLate(s, a)
    else if !Accepted(a, f.owner) then
      s.(summary := s.summary.(context := None), summaryView := ShowSummary(s.summaryView, f.target, ShowsFailed))
    else
      var named := s.(summary := s.summary.(context := Some(s.summary.context.value.(op := Some(a.op))),
                                            early := Remove(s.summary.early, a.op)),
                      review := s.review.(early := Remove(s.review.early, a.op)));
      var early := Find(s.summary.early, a.op);
      if early.Some? then AcceptSummary(named, early.value) else named
  }

  function AckReview(s: Page, n: nat, a: Answer): Page
    requires n in s.review.frames
  {
    ContinueReview(NoteReview(s, n, a), n, s.review.frames[n], a)
  }

  function AckSummary(s: Page, n: nat, a: Answer): Page
    requires n in s.summary.frames
  {
    ContinueSummary(NoteSummary(s, n, a), n, s.summary.frames[n], a)
  }

  // ----- giving up -----

  function Abandoned(cancelled: set<Op>, c: Context): set<Op> {
    if c.op.Some? then cancelled + {c.op.value} else cancelled
  }

  /** cancelWorkspaceDiff. */
  function CancelReview(s: Page): Page {
    if s.review.context.None? then s
    else s.(review := s.review.(context := None, early := []), cancelled := Abandoned(s.cancelled, s.review.context.value))
  }

  /** cancelWorkspaceDiffSummary: also without a context it moves the number on. */
  function CancelSummary(s: Page): Page {
    s.(summary := s.summary.(context := None, number := s.summary.number + 1, early := []),
       cancelled := if s.summary.context.Some? then Abandoned(s.cancelled, s.summary.context.value) else s.cancelled)
  }

  function CloseTab(s: Page, id: string): Page {
    var r := if s.review.context.Some? && s.review.context.value.target == id && id in s.tabs then CancelReview(s) else s;
    r.(tabs := s.tabs - {id})
  }

  function ClosePanel(s: Page): Page {
    var r := CancelReview(s);
    r.(review := r.review.(early := []), tabs := map[])
  }

  /** The effects that run once the page shows another owner. */
  function ReviewEffect(s: Page): Page {
    var r := if s.review.context.Some? && !Matches(s, s.review.context.value.owner) then CancelReview(s) else s;
    r.(tabs := map id | id in s.tabs && Matches(s, s.tabs[id].owner) :: s.tabs[id])
  }

  function SummaryEffect(s: Page): Page {
    var r := if s.summary.context.Some? && !Matches(s, s.summary.context.value.owner) then CancelSummary(s) else s;
    r.(summaryView := if s.summaryView.Some? && !Matches(s, s.summaryView.value.owner) then None else s.summaryView)
  }

  datatype Event = OnOpen(tab: string) | OnRefresh(key: string)
    | OnResumeReview(n: nat) | OnResumeSummary(n: nat)
    | OnAckReview(n: nat, answer: Answer) | OnAckSummary(n: nat, answer: Answer)
    | OnResult(r: Arrival)
    | OnCancelReview | OnCancelSummary | OnCloseTab(id: string) | OnClosePanel
    | OnOwner(owner: Option<Owner>) | OnReviewEffect | OnSummaryEffect

  /** The backend never gives two calls the same operation. */
  predicate FreshAnswer(s: Page, a: Answer) {
    a.Answered? ==> forall c | c in s.acked :: s.acked[c] != a.op
  }

  predicate Enabled(s: Page, e: Event) {
    match e
    case OnResumeReview(n) => n in s.review.frames && s.review.frames[n].phase.Cancelling?
    case OnResumeSummary(n) => n in s.summary.frames && s.summary.frames[n].phase.Cancelling?
    case OnAckReview(n, a) => n in s.review.frames && s.review.frames[n].phase.Asked? && FreshAnswer(s, a)
    case OnAckSummary(n, a) => n in s.summary.frames && s.summary.frames[n].phase.Asked? && FreshAnswer(s, a)
    case _ => true
  }

  function Step(s: Page, e: Event): Page
    requires Enabled(s, e)
  {
    match e
    case OnOpen(tab) => Open(s, tab)
    case OnRefresh(key) => Refresh(s, key)
    case OnResumeReview(n) => s.(review := Resume(s, s.review, n))
    case OnResumeSummary(n) => s.(summary := Resume(s, s.summary, n))
    case OnAckReview(n, a) => AckReview(s, n, a)
    case OnAckSummary(n, a) => AckSummary(s, n, a)
    case OnResult(r) => Receive(s, r)
    case OnCancelReview => CancelReview(s)
    case OnCancelSummary => CancelSummary(s)
    case OnCloseTab(id) => CloseTab(s, id)
    case OnClosePanel => ClosePanel(s)
    case OnOwner(owner) => s.(owner := owner)
    case OnReviewEffect => ReviewEffect(s)
    case OnSummaryEffect => SummaryEffect(s)
  }

  predicate CanRun(s: Page, events: seq<Event>)
    decreases |events|
  {
    events == [] || (Enabled(s, events[0]) && CanRun(Step(s, events[0]), events[1..]))
  }

  function Run(s: Page, events: seq<Event>): Page
    requires CanRun(s, events)
    decreases |events|
  {
    if events == [] then s else Run(Step(s, events[0]), events[1..])
  }
}
