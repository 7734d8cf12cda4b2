/** What has become of each field's newest save once nothing is pending, on a mounted page or after
    it: listed as failed, dropped without a trace, or applied by the bridge. */
module SettingsServed {
  import opened Wrappers
  import opened SettingsModel
  import opened SettingsSafety

  // ----- the number of each field's newest save -----

  function FieldsSaved(s: Saves, e: Event): set<Field>
    requires Enabled(s, e)
  {
    match e
    case OnSave(request) => Identities(request)
    case OnRetryNext(i) => if StillFailed(s, s.retries[i]) then Identities(s.retries[i].1.patch) else {}
    case _ => {}
  }

  function Stamped(savedBy: map<Field, nat>, fields: set<Field>, number: nat): map<Field, nat> {
    savedBy + map f | f in fields :: number
  }

  function SavedBy(s: Saves, savedBy: map<Field, nat>, events: seq<Event>): map<Field, nat>
    requires CanRun(s, events)
    decreases |events|
  {
    if events == [] then savedBy
    else SavedBy(Step(s, events[0]), Stamped(savedBy, FieldsSaved(s, events[0]), s.number + 1), events[1..])
  }

  /** The bridge has taken the field's newest save and applied it. */
  predicate Applied(s: Saves, savedBy: map<Field, nat>, f: Field) {
    f in savedBy && savedBy[f] in s.answers && s.answers[savedBy[f]]
  }

  predicate NewestStored(s: Saves, f: Field) {
    f in s.newest && f in s.stored && s.stored[f] == s.newest[f]
  }

  // ----- the invariant -----

  /** The bridge takes the saves in the order of their numbers, each once. */
  predicate NumbersOk(s: Saves) {
    && (forall i, j | 0 <= i < j < |s.inbox| :: s.inbox[i].number < s.inbox[j].number)
    && (forall n, t | n in s.answers && t in s.inbox :: n < t.number)
  }

  /** The ticket is the newest save of those fields whose number is its own, and of no others. */
  predicate TicketBy(s: Saves, savedBy: map<Field, nat>, t: Ticket) {
    && t.number <= s.number
    && (forall f | f in t.request && IsTracked(f) :: f in savedBy && t.number <= savedBy[f])
    && (forall f | f in savedBy && savedBy[f] == t.number :: f in t.request && f in s.newest && t.request[f] == s.newest[f])
  }

  predicate TicketsBy(s: Saves, savedBy: map<Field, nat>) {
    (forall t | t in s.inbox :: TicketBy(s, savedBy, t)) && forall t | t in Pending(s) :: TicketBy(s, savedBy, t)
  }

  predicate IsNewest(s: Saves, t: Ticket, f: Field) {
    f in t.revisions && f in s.revisions && t.revisions[f] == s.revisions[f]
  }

  predicate NewestBy(s: Saves, savedBy: map<Field, nat>) {
    && savedBy.Keys == s.newest.Keys && (forall f | f in savedBy :: savedBy[f] <= s.number)
    && (forall t, f | t in Pending(s) && f in t.revisions && IsNewest(s, t, f) :: f in savedBy && savedBy[f] == t.number)
  }

  predicate AppliedOk(s: Saves, savedBy: map<Field, nat>) {
    forall f | f in s.newest && Applied(s, savedBy, f) :: NewestStored(s, f)
  }

  /** The newest save of every field is pending, listed, dropped or applied. */
  predicate Accounted(s: Saves, savedBy: map<Field, nat>) {
    forall f | f in s.newest :: IsPending(s, f) || f in s.failed || f in s.dropped || Applied(s, savedBy, f)
  }

  predicate Served(s: Saves, savedBy: map<Field, nat>) {
    NumbersOk(s) && TicketsBy(s, savedBy) && NewestBy(s, savedBy) && AppliedOk(s, savedBy) && Accounted(s, savedBy)
  }

  // ----- a save -----

  lemma SaveStamps(s: Saves, savedBy: map<Field, nat>, request: Request)
    requires Inv(s) && Served(s, savedBy) && Enabled(s, OnSave(request))
    ensures Served(Save(s, request), Stamped(savedBy, Identities(request), s.number + 1))
  {
    var r, next := Save(s, request), Stamped(savedBy, Identities(request), s.number + 1);
    var t := r.waiting[|s.waiting|];
    assert Pending(r) == Pending(s) + [t];
    hide FailedOk, DroppedOk, FieldsOk;
    SaveTickets(s, savedBy, request, t);
    SaveNewest(s, savedBy, request, t);
    SaveApplied(s, savedBy, request);
    SaveAccounted(s, savedBy, request, t);
  }

  lemma SaveTickets(s: Saves, savedBy: map<Field, nat>, request: Request, t: Ticket)
    requires BridgeOk(s) && PendingOk(s) && TicketsBy(s, savedBy) && NewestBy(s, savedBy) && Enabled(s, OnSave(request))
    requires t == Save(s, request).waiting[|s.waiting|] && Pending(Save(s, request)) == Pending(s) + [t]
    ensures TicketsBy(Save(s, request), Stamped(savedBy, Identities(request), s.number + 1))
  {
    hide Pending, BridgeOk, PendingOk, NewestBy, TicketBy;
    var r, next := Save(s, request), Stamped(savedBy, Identities(request), s.number + 1);
    forall u | u in s.inbox || u in Pending(s) ensures TicketBy(r, next, u) {
      OlderBy(s, savedBy, request, u);
    }
    NewBy(s, savedBy, request);
  }

  lemma NewBy(s: Saves, savedBy: map<Field, nat>, request: Request)
    requires NewestBy(s, savedBy) && Enabled(s, OnSave(request))
    ensures TicketBy(Save(s, request), Stamped(savedBy, Identities(request), s.number + 1),
                     Ticket(request, Bumped(s.revisions, Identities(request)), s.number + 1))
  {
    hide Pending, IsNewest, Bumped;
  }

  lemma OlderBy(s: Saves, savedBy: map<Field, nat>, request: Request, u: Ticket)
    requires TicketBy(s, savedBy, u)
    ensures TicketBy(Save(s, request), Stamped(savedBy, Identities(request), s.number + 1), u)
  {
    assert forall f | f in Identities(request) :: f in request;
    hide Identities;
  }

  lemma SaveNewest(s: Saves, savedBy: map<Field, nat>, request: Request, t: Ticket)
    requires PendingOk(s) && NewestBy(s, savedBy)
    requires t == Save(s, request).waiting[|s.waiting|] && Pending(Save(s, request)) == Pending(s) + [t]
    ensures NewestBy(Save(s, request), Stamped(savedBy, Identities(request), s.number + 1))
  {
    var r, next := Save(s, request), Stamped(savedBy, Identities(request), s.number + 1);
    StampedKeys(s, savedBy, request);
    hide Identities, Pending, TicketOk, IsNewest, PendingOk, Bumped;
    forall u, f | u in Pending(r) && f in u.revisions && IsNewest(r, u, f) ensures f in next && next[f] == u.number {
      if u in Pending(s) {
        Facts(s, u);
        OldIsNewest(s, request, u, f);
      } else {
        NewIsNewest(s, request, f);
      }
    }
    hide Save, Stamped;
  }

  lemma StampedKeys(s: Saves, savedBy: map<Field, nat>, request: Request)
    requires savedBy.Keys == s.newest.Keys && forall f | f in savedBy :: savedBy[f] <= s.number
    ensures var r, next := Save(s, request), Stamped(savedBy, Identities(request), s.number + 1);
            next.Keys == r.newest.Keys && forall f | f in next :: next[f] <= r.number
  {
    assert forall f | f in Identities(request) :: f in request;
    hide Identities;
  }

  lemma OldIsNewest(s: Saves, request: Request, u: Ticket, f: Field)
    requires TicketOk(s, u) && IsNewest(Save(s, request), u, f)
    ensures f !in Identities(request) && IsNewest(s, u, f)
  {
    hide Identities;
  }

  lemma NewIsNewest(s: Saves, request: Request, f: Field)
    requires IsNewest(Save(s, request), Ticket(request, Bumped(s.revisions, Identities(request)), s.number + 1), f)
    ensures f in Identities(request)
  {
    hide Identities;
  }

  lemma SaveApplied(s: Saves, savedBy: map<Field, nat>, request: Request)
    requires BridgeOk(s) && AppliedOk(s, savedBy) && NewestBy(s, savedBy)
    ensures AppliedOk(Save(s, request), Stamped(savedBy, Identities(request), s.number + 1))
  {
    hide Identities;
  }

  lemma SaveAccounted(s: Saves, savedBy: map<Field, nat>, request: Request, t: Ticket)
    requires Accounted(s, savedBy) && NewestBy(s, savedBy)
    requires t == Save(s, request).waiting[|s.waiting|] && Pending(Save(s, request)) == Pending(s) + [t]
    ensures Accounted(Save(s, request), Stamped(savedBy, Identities(request), s.number + 1))
  {
    var r, next := Save(s, request), Stamped(savedBy, Identities(request), s.number + 1);
    forall f | f in r.newest ensures IsPending(r, f) || f in r.failed || f in r.dropped || Applied(r, next, f) {
      if f in t.revisions {
        assert t in Pending(r);
      } else if IsPending(s, f) {
        var u :| u in Pending(s) && f in u.revisions && f in s.revisions && u.revisions[f] == s.revisions[f];
        assert u in Pending(r);
      }
    }
  }

  // ----- the bridge -----

  lemma SendServes(s: Saves, savedBy: map<Field, nat>)
    requires Inv(s) && Served(s, savedBy) && Enabled(s, OnSend)
    ensures Served(Send(s), savedBy)
  {
    var r := Send(s);
    assert Pending(r) == Pending(s);
    assert s.waiting[0] in s.waiting && s.waiting[0] in Pending(s);
    hide FailedOk, DroppedOk, FieldsOk, PendingOk, Pending;
    assert NumbersOk(r) by {
      hide TicketsBy, NewestBy, AppliedOk, Accounted;
    }
    SameServed(s, r, savedBy);
  }

  lemma SameTicketBy(s: Saves, r: Saves, savedBy: map<Field, nat>, t: Ticket)
    requires TicketBy(s, savedBy, t) && r.number == s.number && r.newest == s.newest
    ensures TicketBy(r, savedBy, t)
  {
  }

  /** The tickets that are left are as before. */
  lemma SameBy(s: Saves, r: Saves, savedBy: map<Field, nat>)
    requires TicketsBy(s, savedBy) && NewestBy(s, savedBy)
    requires r.number == s.number && r.newest == s.newest && r.revisions == s.revisions
    requires forall t | t in r.inbox :: t in s.inbox || t in Pending(s)
    requires forall t | t in Pending(r) :: t in Pending(s)
    ensures TicketsBy(r, savedBy) && NewestBy(r, savedBy)
  {
    forall t, f ensures IsNewest(r, t, f) == IsNewest(s, t, f) {
    }
    hide Pending, TicketBy, IsNewest;
    forall t | t in s.inbox || t in Pending(s) ensures TicketBy(r, savedBy, t) {
      SameTicketBy(s, r, savedBy, t);
    }
  }

  /** Nothing but the places of the tickets has changed. */
  lemma SameServed(s: Saves, r: Saves, savedBy: map<Field, nat>)
    requires Served(s, savedBy) && Pending(r) == Pending(s) && r.number == s.number && r.newest == s.newest
    requires r.revisions == s.revisions && r.answers == s.answers && r.stored == s.stored && r.failed == s.failed
    requires r.dropped == s.dropped && forall t | t in r.inbox :: t in s.inbox || t in Pending(s)
    ensures TicketsBy(r, savedBy) && NewestBy(r, savedBy) && AppliedOk(r, savedBy) && Accounted(r, savedBy)
  {
    SameBy(s, r, savedBy);
    hide NumbersOk, TicketsBy, NewestBy;
    forall f ensures IsPending(r, f) == IsPending(s, f) && Applied(r, savedBy, f) == Applied(s, savedBy, f) {
    }
    hide Pending, IsPending, Applied;
  }

  lemma ServeServes(s: Saves, savedBy: map<Field, nat>, accepted: bool)
    requires Inv(s) && Served(s, savedBy) && Enabled(s, OnServe(accepted))
    ensures Served(Serve(s, accepted), savedBy)
  {
    var r := Serve(s, accepted);
    hide PendingOk, FailedOk, DroppedOk, BridgeOk, FieldsOk, TicketsBy, NewestBy, AppliedOk, Accounted, KeysOk;
    assert Pending(r) == Pending(s) && r.inbox == s.inbox[1..];
    ServeNumbers(s, accepted);
    SameBy(s, r, savedBy);
    ServeApplied(s, savedBy, accepted);
    ServeAccounted(s, savedBy, accepted);
  }

  lemma ServeNumbers(s: Saves, accepted: bool)
    requires NumbersOk(s) && s.inbox != []
    ensures NumbersOk(Serve(s, accepted))
  {
    var r, t := Serve(s, accepted), s.inbox[0];
    assert t in s.inbox && forall u | u in r.inbox :: u in s.inbox;
    forall u | u in r.inbox ensures t.number < u.number {
      var i :| 0 <= i < |r.inbox| && r.inbox[i] == u;
      assert s.inbox[i + 1] == u;
    }
  }

  lemma ServeApplied(s: Saves, savedBy: map<Field, nat>, accepted: bool)
    requires KeysOk(s) && Served(s, savedBy) && s.inbox != []
    ensures AppliedOk(Serve(s, accepted), savedBy)
  {
    hide Accounted, NewestBy;
    var r, t := Serve(s, accepted), s.inbox[0];
    assert t in s.inbox && TicketBy(s, savedBy, t);
    forall f | f in r.newest && Applied(r, savedBy, f) ensures NewestStored(r, f) {
      if savedBy[f] != t.number {
        assert Applied(s, savedBy, f);
        assert savedBy[f] < t.number;
      }
    }
  }

  lemma ServeAccounted(s: Saves, savedBy: map<Field, nat>, accepted: bool)
    requires Served(s, savedBy) && s.inbox != []
    ensures Accounted(Serve(s, accepted), savedBy)
  {
    hide TicketsBy, NewestBy, AppliedOk;
    var r := Serve(s, accepted);
    assert Pending(r) == Pending(s) && s.inbox[0] in s.inbox;
    forall f | f in r.newest ensures IsPending(r, f) || f in r.failed || f in r.dropped || Applied(r, savedBy, f) {
      if IsPending(s, f) {
        assert IsPending(r, f);
      }
    }
  }

  // ----- the answers -----

  /** After an answer: the fields of the settled save whose newest it is are accounted for. */
  lemma SettledServed(s: Saves, r: Saves, savedBy: map<Field, nat>)
    requires Inv(s) && Served(s, savedBy) && s.sent.Some? && r.sent.None? && r.waiting == s.waiting
    requires r.number == s.number && r.newest == s.newest && r.revisions == s.revisions && r.answers == s.answers
    requires r.stored == s.stored && r.inbox == s.inbox
    requires forall f | f in s.failed || f in s.dropped :: f in r.failed || f in r.dropped || f in Current(s, s.sent.value)
    requires forall f | f in Current(s, s.sent.value) :: f in r.failed || f in r.dropped || Applied(r, savedBy, f)
    ensures Served(r, savedBy)
  {
    var t := s.sent.value;
    hide Inv, AppliedOk, Accounted, NumbersOk, TicketsBy, NewestBy, Current;
    assert Pending(s) == [t] + s.waiting && Pending(r) == s.waiting;
    SameBy(s, r, savedBy);
    SettledAccounted(s, r, savedBy);
    SameNumbers(s, r, savedBy);
  }

  lemma SameNumbers(s: Saves, r: Saves, savedBy: map<Field, nat>)
    requires NumbersOk(s) && AppliedOk(s, savedBy) && r.inbox == s.inbox && r.answers == s.answers
    requires r.newest == s.newest && r.stored == s.stored
    ensures NumbersOk(r) && AppliedOk(r, savedBy)
  {
  }

  lemma SettledAccounted(s: Saves, r: Saves, savedBy: map<Field, nat>)
    requires KeysOk(s) && Accounted(s, savedBy) && s.sent.Some? && r.sent.None? && r.waiting == s.waiting
    requires r.newest == s.newest && r.revisions == s.revisions && r.answers == s.answers
    requires forall f | f in s.failed || f in s.dropped :: f in r.failed || f in r.dropped || f in Current(s, s.sent.value)
    requires forall f | f in Current(s, s.sent.value) :: f in r.failed || f in r.dropped || Applied(r, savedBy, f)
    ensures Accounted(r, savedBy)
  {
    hide Current;
    forall f | f in r.newest ensures IsPending(r, f) || f in r.failed || f in r.dropped || Applied(r, savedBy, f) {
      if IsPending(s, f) && f !in Current(s, s.sent.value) {
        CurrentIs(s, s.sent.value, f);
        StillPending(s, r, f);
      }
    }
  }

  lemma CurrentIs(s: Saves, t: Ticket, f: Field)
    ensures f in Current(s, t) <==> IsNewest(s, t, f)
  {
  }

  lemma SuccessApplied(s: Saves, savedBy: map<Field, nat>, f: Field)
    requires NewestBy(s, savedBy) && Enabled(s, OnSuccess) && f in Current(s, s.sent.value)
    ensures Applied(Succeed(s), savedBy, f)
  {
    assert s.sent.value in Pending(s);
    CurrentIs(s, s.sent.value, f);
  }

  lemma SuccessServes(s: Saves, savedBy: map<Field, nat>)
    requires Inv(s) && Served(s, savedBy) && Enabled(s, OnSuccess)
    ensures Served(Succeed(s), savedBy)
  {
    forall f | f in Current(s, s.sent.value) ensures Applied(Succeed(s), savedBy, f) {
      SuccessApplied(s, savedBy, f);
    }
    hide Inv, Served, Current, Applied;
    SettledServed(s, Succeed(s), savedBy);
  }

  lemma FailureServes(s: Saves, savedBy: map<Field, nat>)
    requires Inv(s) && Served(s, savedBy) && Enabled(s, OnFailure)
    ensures Served(Fail(s), savedBy)
  {
    var r, t := Fail(s), s.sent.value;
    assert t in Pending(s);
    forall f | f in Current(s, t) ensures f in r.failed || f in r.dropped {
      RequestHas(s, t, f);
    }
    hide Inv, Served;
    SettledServed(s, r, savedBy);
  }

  // ----- every run -----

  lemma RetryServes(s: Saves, savedBy: map<Field, nat>, i: nat)
    requires Inv(s) && Served(s, savedBy) && i < |s.retries|
    ensures Served(RetryNext(s, i), Stamped(savedBy, FieldsSaved(s, OnRetryNext(i)), s.number + 1))
  {
    hide Inv, Save, Identities, Served, Stamped, StillFailed, Kept, IsTracked, IsAutoSave;
    var rest := s.(retries := s.retries[..i] + s.retries[i + 1..]);
    AfterRetryRound(s, i);
    NothingServes(s, rest, savedBy);
    StampNone(savedBy, s.number + 1);
    if StillFailed(s, s.retries[i]) {
      SaveStamps(rest, savedBy, s.retries[i].1.patch);
    }
  }

  lemma StampNone(savedBy: map<Field, nat>, number: nat)
    ensures Stamped(savedBy, {}, number) == savedBy
  {
  }

  lemma StepServes(s: Saves, savedBy: map<Field, nat>, e: Event)
    requires Inv(s) && Served(s, savedBy) && Enabled(s, e)
    ensures Served(Step(s, e), Stamped(savedBy, FieldsSaved(s, e), s.number + 1))
  {
    StampNone(savedBy, s.number + 1);
    hide Inv, Stamped, Save, Identities, Served;
    match e
    case OnSave(request) => SaveStamps(s, savedBy, request);
    case OnSend => SendServes(s, savedBy);
    case OnServe(accepted) => ServeServes(s, savedBy, accepted);
    case OnSuccess => SuccessServes(s, savedBy);
    case OnFailure => FailureServes(s, savedBy);
    case OnRetry(order) => NothingServes(s, Retry(s, order), savedBy);
    case OnRetryNext(i) => RetryServes(s, savedBy, i);
    case OnUnmount => NothingServes(s, s.(mounted := false), savedBy);
  }

  lemma NothingServes(s: Saves, r: Saves, savedBy: map<Field, nat>)
    requires Served(s, savedBy) && (r == s.(retries := r.retries) || r == s.(mounted := false))
    ensures Served(r, savedBy)
  {
    assert Pending(r) == Pending(s);
    assert NumbersOk(r);
    SameServed(s, r, savedBy);
  }

  lemma {:induction false} RunServes(s: Saves, savedBy: map<Field, nat>, events: seq<Event>)
    requires Inv(s) && Served(s, savedBy) && CanRun(s, events)
    ensures Inv(Run(s, events)) && Served(Run(s, events), SavedBy(s, savedBy, events))
    decreases |events|
  {
    hide Inv, Served, Step, Stamped, FieldsSaved;
    if events != [] {
      StepKeeps(s, events[0]);
      StepServes(s, savedBy, events[0]);
      RunServes(Step(s, events[0]), Stamped(savedBy, FieldsSaved(s, events[0]), s.number + 1), events[1..]);
    }
  }

  lemma StartServes()
    ensures Served(START, map[])
  {
  }

  /** When no save is pending, whether or not the page is still there: a field whose newest save the
      bridge has not applied is listed as failed if and only if it was not dropped; and what it has
      applied of newest saves is what it has stored. A field is dropped as SettingsSafety.DroppedIff
      says. */
  lemma UnappliedIsListedIffNotDropped(events: seq<Event>, f: Field)
    requires CanRun(START, events)
    requires var s := Run(START, events); s.sent.None? && s.waiting == [] && f in s.newest
    ensures var s := Run(START, events);
            !Applied(s, SavedBy(START, map[], events), f) ==> (f in s.failed <==> f !in s.dropped)
    ensures var s := Run(START, events);
            Applied(s, SavedBy(START, map[], events), f) ==> NewestStored(s, f)
  {
    StartOk();
    StartServes();
    RunServes(START, map[], events);
    var s := Run(START, events);
    hide Run, CanRun, SavedBy, FieldsOk, FailedOk, PendingOk, BridgeOk, TicketsBy, NewestBy, NumbersOk;
    assert Pending(s) == [];
    assert !IsPending(s, f);
  }
}
