/** The code of the workspace-diff functions in App.tsx: refs that the calls, the answers and the
    events update in place. Each is proved to be the step of DiffModel and to keep the invariant
    of its runs; none shows more than one result, and only for the last call of its side. */
module WorkspaceDiffPage {
  import opened Wrappers
  import opened DiffModel
  import DiffSafety

  class DiffPage {
    var owner: Option<Owner>
    var workspaceDiffContext: Option<Context>
    var workspaceDiffSequence: nat
    var earlyWorkspaceDiffEvents: Buffer
    var workspaceDiffFrames: map<nat, Frame>
    var summaryContext: Option<Context>
    var summarySequence: nat
    var earlySummaryEvents: Buffer
    var summaryFrames: map<nat, Frame>
    var tabs: map<string, View>
    var workspaceDiffSummary: Option<View>
    var cancelled: set<Op>
    ghost var acked: map<Call, Op>
    ghost var arrived: seq<Arrival>
    ghost var applied: seq<(Call, Arrival)>

    ghost function Abs(): Page
      reads this
    {
      Page(owner,
           Side(workspaceDiffContext, workspaceDiffSequence, earlyWorkspaceDiffEvents, workspaceDiffFrames),
           Side(summaryContext, summarySequence, earlySummaryEvents, summaryFrames),
           tabs, workspaceDiffSummary, cancelled, acked, arrived, applied)
    }

    /** The invariant of all runs: contexts, frames, buffers, named operations and views agree. */
    ghost predicate Valid()
      reads this
    {
      DiffSafety.Inv(Abs())
    }

    constructor (owner: Owner)
      ensures Valid() && Abs() == Init(owner)
    {
      this.owner := Some(owner);
      workspaceDiffContext, workspaceDiffSequence, earlyWorkspaceDiffEvents, workspaceDiffFrames := None, 0, [], map[];
      summaryContext, summarySequence, earlySummaryEvents, summaryFrames := None, 0, [], map[];
      tabs, workspaceDiffSummary, cancelled := map[], None, {};
      acked, arrived, applied := map[], [], [];
    }

    method UpdateReviewTab(id: string, shown: Shown)
      modifies this`tabs
      ensures tabs == ShowTab(old(tabs), id, shown)
    {
      if id in tabs {
        tabs := tabs[id := tabs[id].(shown := shown)];
      }
    }

    method UpdateSummary(requestKey: string, shown: Shown)
      modifies this`workspaceDiffSummary
      ensures workspaceDiffSummary == ShowSummary(old(workspaceDiffSummary), requestKey, shown)
    {
      if workspaceDiffSummary.Some? && workspaceDiffSummary.value.target == requestKey {
        workspaceDiffSummary := Some(workspaceDiffSummary.value.(shown := shown));
      }
    }

    method AcceptWorkspaceDiffEvent(r: Arrival)
      modifies this
      ensures Abs() == AcceptReview(old(Abs()), r)
    {
      if workspaceDiffContext.None? || workspaceDiffContext.value.op != Some(r.op) {
        return;
      }
      var context := workspaceDiffContext.value;
      if owner != Some(context.owner) {
        workspaceDiffContext := None;
        return;
      }
      if r.key != context.owner.key {
        workspaceDiffContext := None;
        UpdateReviewTab(context.target, ShowsFailed);
        return;
      }
      if r.outcome.OtherState? {
        return;
      }
      workspaceDiffContext := None;
      earlyWorkspaceDiffEvents := Remove(earlyWorkspaceDiffEvents, r.op);
      UpdateReviewTab(context.target, ShownFor(r.outcome));
      applied := applied + [(Review(context.number), r)];
    }

    method AcceptWorkspaceDiffSummaryEvent(r: Arrival)
      modifies this
      ensures Abs() == AcceptSummary(old(Abs()), r)
    {
      if summaryContext.None? || summaryContext.value.op != Some(r.op) {
        return;
      }
      var context := summaryContext.value;
      if owner != Some(context.owner) {
        summaryContext := None;
        return;
      }
      if r.key != context.owner.key {
        summaryContext := None;
        UpdateSummary(context.target, ShowsFailed);
        return;
      }
      if r.outcome.OtherState? {
        return;
      }
      summaryContext := None;
      earlySummaryEvents := Remove(earlySummaryEvents, r.op);
      earlyWorkspaceDiffEvents := Remove(earlyWorkspaceDiffEvents, r.op);
      UpdateSummary(context.target, SummaryFor(r.outcome));
      applied := applied + [(Summary(context.number), r)];
    }

    method ReceiveWorkspaceDiffEvent(r: Arrival)
      requires Valid()
      modifies this
      ensures Valid() && DiffSafety.ShowsOnlyLastCall(old(Abs()), Abs())
      ensures Abs() == Receive(old(Abs()), r)
    {
      hide DiffSafety.Inv, DiffSafety.LastCall;
      DiffSafety.StepKeeps(Abs(), OnResult(r));
      DiffSafety.OnlyLastCallShows(Abs(), OnResult(r));
      hide AcceptReview, AcceptSummary;
      arrived := arrived + [r];
      if r.op == "" {
        return;
      }
      var reviewContext, context := workspaceDiffContext, summaryContext;
      if reviewContext.Some? && reviewContext.value.op == Some(r.op) {
        AcceptWorkspaceDiffEvent(r);
        earlySummaryEvents := Remove(earlySummaryEvents, r.op);
        return;
      }
      if context.Some? && context.value.op == Some(r.op) {
        AcceptWorkspaceDiffSummaryEvent(r);
        earlyWorkspaceDiffEvents := Remove(earlyWorkspaceDiffEvents, r.op);
        return;
      }
      if reviewContext.Some? && reviewContext.value.op.None? && r.key == reviewContext.value.owner.key {
        earlyWorkspaceDiffEvents := Keep(earlyWorkspaceDiffEvents, r);
      }
      if context.Some? && context.value.op.None? && r.key == context.value.owner.key {
        earlySummaryEvents := Keep(earlySummaryEvents, r);
      }
    }

    method CancelOperation(previous: Option<Context>) returns (phase: Phase)
      modifies this`cancelled
      ensures cancelled == CancelFirst(old(cancelled), previous) && phase == FirstPhase(previous)
    {
      phase := Asked;
      if previous.Some? && previous.value.op.Some? {
        cancelled := cancelled + {previous.value.op.value};
        phase := Cancelling;
      }
    }

    method NewReviewContext(current: Owner, target: string, phase: Phase)
      requires phase == FirstPhase(workspaceDiffContext)
      modifies this`workspaceDiffContext, this`workspaceDiffSequence, this`earlyWorkspaceDiffEvents, this`workspaceDiffFrames
      ensures Abs().review == Opened(old(Abs().review), current, target)
    {
      workspaceDiffSequence := workspaceDiffSequence + 1;
      workspaceDiffContext := Some(Context(workspaceDiffSequence, None, current, target));
      earlyWorkspaceDiffEvents := [];
      workspaceDiffFrames := workspaceDiffFrames[workspaceDiffSequence := Frame(current, target, phase)];
    }

    /** Up to the first await. */
    method OpenWorkspaceDiff(id: string)
      requires Valid()
      modifies this
      ensures Valid() && applied == old(applied)
      ensures Abs() == Open(old(Abs()), id)
    {
      hide DiffSafety.Inv;
      DiffSafety.StepKeeps(Abs(), OnOpen(id));
      if owner.None? {
        return;
      }
      var phase := CancelOperation(workspaceDiffContext);
      NewReviewContext(owner.value, id, phase);
      tabs := tabs[id := View(owner.value, id, workspaceDiffSequence, Reviewing)];
    }

    /** From the first await to the kickoff. */
    method AfterCancel(n: nat)
      requires Valid() && Enabled(Abs(), OnResumeReview(n))
      modifies this
      ensures Valid() && applied == old(applied)
      ensures Abs() == old(Abs()).(review := Resume(old(Abs()), old(Abs()).review, n))
    {
      hide DiffSafety.Inv;
      DiffSafety.StepKeeps(Abs(), OnResumeReview(n));
      var frame := workspaceDiffFrames[n];
      if workspaceDiffContext.None? || workspaceDiffContext.value.number != n || owner != Some(frame.owner) {
        workspaceDiffFrames := workspaceDiffFrames - {n};
        return;
      }
      workspaceDiffFrames := workspaceDiffFrames[n := frame.(phase := Asked)];
    }

    method CancelLateOperation(answer: Answer)
      modifies this`cancelled
      ensures Abs() == CancelLate(old(Abs()), answer)
    {
      if answer.Answered? && answer.op != "" {
        cancelled := cancelled + {answer.op};
      }
    }

    /** From the kickoff's answer, or its failure, to the end. */
    method AfterKickoff(n: nat, answer: Answer)
      requires Valid() && Enabled(Abs(), OnAckReview(n, answer))
      modifies this
      ensures Valid() && DiffSafety.ShowsOnlyLastCall(old(Abs()), Abs())
      ensures Abs() == AckReview(old(Abs()), n, answer)
    {
      hide DiffSafety.Inv, DiffSafety.LastCall;
      DiffSafety.StepKeeps(Abs(), OnAckReview(n, answer));
      DiffSafety.OnlyLastCallShows(Abs(), OnAckReview(n, answer));
      hide ContinueReview;
      var frame := workspaceDiffFrames[n];
      workspaceDiffFrames := workspaceDiffFrames - {n};
      if answer.Answered? && answer.op != "" {
        acked := acked[Review(n) := answer.op];
      }
      ReviewAnswered(n, frame, answer);
    }

    method ReviewAnswered(n: nat, frame: Frame, answer: Answer)
      modifies this
      ensures Abs() == ContinueReview(old(Abs()), n, frame, answer)
    {
      hide AcceptReview, CancelLate;
      if workspaceDiffContext.None? || workspaceDiffContext.value.number != n || owner != Some(frame.owner) {
        CancelLateOperation(answer);
        return;
      }
      if answer.Threw? || answer.op == "" || answer.key != frame.owner.key || !answer.reviewing {
        workspaceDiffContext := None;
        UpdateReviewTab(frame.target, ShowsFailed);
        return;
      }
      workspaceDiffContext := Some(workspaceDiffContext.value.(op := Some(answer.op)));
      var early := Find(earlyWorkspaceDiffEvents, answer.op);
      earlyWorkspaceDiffEvents := [];
      if early.Some? {
        AcceptWorkspaceDiffEvent(early.value);
      }
    }

    method NewSummaryContext(current: Owner, target: string, phase: Phase)
      requires phase == FirstPhase(summaryContext)
      modifies this`summaryContext, this`summarySequence, this`earlySummaryEvents, this`summaryFrames
      ensures Abs().summary == Opened(old(Abs().summary), current, target)
    {
      summarySequence := summarySequence + 1;
      summaryContext := Some(Context(summarySequence, None, current, target));
      earlySummaryEvents := [];
      summaryFrames := summaryFrames[summarySequence := Frame(current, target, phase)];
    }

    method RefreshWorkspaceDiffSummary(requestKey: string)
      requires Valid()
      modifies this
      ensures Valid() && applied == old(applied)
      ensures Abs() == Refresh(old(Abs()), requestKey)
    {
      hide DiffSafety.Inv;
      DiffSafety.StepKeeps(Abs(), OnRefresh(requestKey));
      if owner.None? {
        return;
      }
      var phase := CancelOperation(summaryContext);
      NewSummaryContext(owner.value, requestKey, phase);
      workspaceDiffSummary := Some(View(owner.value, requestKey, summarySequence, Reviewing));
    }

    method AfterSummaryCancel(n: nat)
      requires Valid() && Enabled(Abs(), OnResumeSummary(n))
      modifies this
      ensures Valid() && applied == old(applied)
      ensures Abs() == old(Abs()).(summary := Resume(old(Abs()), old(Abs()).summary, n))
    {
      hide DiffSafety.Inv;
      DiffSafety.StepKeeps(Abs(), OnResumeSummary(n));
      var frame := summaryFrames[n];
      if summaryContext.None? || summaryContext.value.number != n || owner != Some(frame.owner) {
        summaryFrames := summaryFrames - {n};
        return;
      }
      summaryFrames := summaryFrames[n := frame.(phase := Asked)];
    }

    method AfterSummaryKickoff(n: nat, answer: Answer)
      requires Valid() && Enabled(Abs(), OnAckSummary(n, answer))
      modifies this
      ensures Valid() && DiffSafety.ShowsOnlyLastCall(old(Abs()), Abs())
      ensures Abs() == AckSummary(old(Abs()), n, answer)
    {
      hide DiffSafety.Inv, DiffSafety.LastCall;
      DiffSafety.StepKeeps(Abs(), OnAckSummary(n, answer));
      DiffSafety.OnlyLastCallShows(Abs(), OnAckSummary(n, answer));
      hide ContinueSummary;
      var frame := summaryFrames[n];
      summaryFrames := summaryFrames - {n};
      if answer.Answered? && answer.op != "" {
        acked := acked[Summary(n) := answer.op];
      }
      SummaryAnswered(n, frame, answer);
    }

    method SummaryAnswered(n: nat, frame: Frame, answer: Answer)
      modifies this
      ensures Abs() == ContinueSummary(old(Abs()), n, frame, answer)
    {
      hide AcceptSummary, CancelLate;
      if summaryContext.None? || summaryContext.value.number != n || owner != Some(frame.owner) {
        CancelLateOperation(answer);
        return;
      }
      if answer.Threw? || answer.op == "" || answer.key != frame.owner.key || !answer.reviewing {
        summaryContext := None;
        UpdateSummary(frame.target, ShowsFailed);
        return;
      }
      summaryContext := Some(summaryContext.value.(op := Some(answer.op)));
      var early := Find(earlySummaryEvents, answer.op);
      earlySummaryEvents := Remove(earlySummaryEvents, answer.op);
      earlyWorkspaceDiffEvents := Remove(earlyWorkspaceDiffEvents, answer.op);
      if early.Some? {
        AcceptWorkspaceDiffSummaryEvent(early.value);
      }
    }

    method CancelWorkspaceDiff()
      requires Valid()
      modifies this
      ensures Valid() && applied == old(applied)
      ensures Abs() == CancelReview(old(Abs()))
    {
      hide DiffSafety.Inv;
      DiffSafety.StepKeeps(Abs(), OnCancelReview);
      if workspaceDiffContext.None? {
        return;
      }
      var context := workspaceDiffContext.value;
      workspaceDiffContext := None;
      earlyWorkspaceDiffEvents := [];
      if context.op.Some? {
        cancelled := cancelled + {context.op.value};
      }
    }

    method CancelWorkspaceDiffSummary()
      requires Valid()
      modifies this
      ensures Valid() && applied == old(applied)
      ensures Abs() == CancelSummary(old(Abs()))
    {
      hide DiffSafety.Inv;
      DiffSafety.StepKeeps(Abs(), OnCancelSummary);
      var context := summaryContext;
      summaryContext := None;
      summarySequence := summarySequence + 1;
      earlySummaryEvents := [];
      if context.Some? && context.value.op.Some? {
        cancelled := cancelled + {context.value.op.value};
      }
    }

    method CloseReviewTab(id: string)
      requires Valid()
      modifies this
      ensures Valid() && applied == old(applied)
      ensures Abs() == CloseTab(old(Abs()), id)
    {
      hide DiffSafety.Inv;
      DiffSafety.StepKeeps(Abs(), OnCloseTab(id));
      if id in tabs && workspaceDiffContext.Some? && workspaceDiffContext.value.target == id {
        CancelWorkspaceDiff();
      }
      tabs := tabs - {id};
    }

    method CloseReviewPanel()
      requires Valid()
      modifies this
      ensures Valid() && applied == old(applied)
      ensures Abs() == ClosePanel(old(Abs()))
    {
      hide DiffSafety.Inv;
      DiffSafety.StepKeeps(Abs(), OnClosePanel);
      CancelWorkspaceDiff();
      earlyWorkspaceDiffEvents := [];
      tabs := map[];
    }
  }
}
