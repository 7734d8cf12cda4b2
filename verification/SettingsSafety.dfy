/** What the auto-save protocol keeps, over every run of SettingsModel. */
module SettingsSafety {
  import opened Wrappers
  import opened SettingsModel

  /** The saves that have not settled, oldest first. */
  function Pending(s: Saves): seq<Ticket> {
    (if s.sent.Some? then [s.sent.value] else []) + s.waiting
  }

  /** A ticket has a revision for exactly the tracked fields of its request; where no later
      save has touched the field, its value is the newest. */
  predicate TicketOk(s: Saves, t: Ticket) {
    && t.number <= s.number
    && (forall f | f in t.request && IsTracked(f) :: f in t.revisions)
    && (forall f | f in t.revisions ::
          f in t.request && IsTracked(f) && f in s.revisions && t.revisions[f] <= s.revisions[f] && f in s.newest
          && (t.revisions[f] == s.revisions[f] ==> t.request[f] == s.newest[f]))
  }

  predicate Before(t: Ticket, u: Ticket) {
    t.number < u.number && forall f | f in t.revisions && f in u.revisions :: t.revisions[f] < u.revisions[f]
  }

  /** No failed entry is older than the newest request of its field. */
  predicate FailedOk(s: Saves) {
    forall f | f in s.failed ::
      && f in s.newest && f in s.revisions
      && s.failed[f] == Failed(map[f := s.newest[f]], s.revisions[f])
  }

  /** The save on its way is the last one the bridge has got; once it is answered, the bridge
      has nothing left to do. */
  predicate BridgeOk(s: Saves) {
    && (forall t | t in s.inbox :: t.number <= s.number && forall u | u in s.waiting :: t.number < u.number)
    && (forall n | n in s.answers :: n <= s.number && forall u | u in s.waiting :: n < u.number)
    && (s.sent.Some? ==> SentOk(s, s.sent.value))
  }

  predicate SentOk(s: Saves, t: Ticket) {
    if t.number in s.answers then
      s.inbox == [] && (s.answers[t.number] ==> forall f | f in t.request :: f in s.stored && s.stored[f] == t.request[f])
    else
      && s.inbox != [] && s.inbox[|s.inbox| - 1] == t
      && forall i | 0 <= i < |s.inbox| - 1 :: s.inbox[i].number < t.number
  }

  /** The newest request of a field is still pending with it, or... */
  predicate IsPending(s: Saves, f: Field) {
    exists t | t in Pending(s) :: f in t.revisions && f in s.revisions && t.revisions[f] == s.revisions[f]
  }

  /** ... has been stored, and nothing under way touches the field. */
  predicate IsStored(s: Saves, f: Field) {
    && f in s.newest && f in s.stored && s.stored[f] == s.newest[f]
    && (forall t | t in s.inbox :: f !in t.request)
    && (forall t | t in Pending(s) :: f !in t.revisions)
  }

  predicate FieldOk(s: Saves, f: Field) {
    IsPending(s, f) || IsStored(s, f) || f in s.failed || f in s.dropped
  }

  /** A field is dropped only once the page is gone, and then it has no entry; nor has one whose
      newest save is pending. */
  predicate DroppedOk(s: Saves) {
    && (forall f | f in s.dropped :: !s.mounted && f !in s.failed)
    && (forall f | f in s.failed :: !IsPending(s, f))
  }

  predicate PendingOk(s: Saves) {
    && (forall t | t in Pending(s) :: TicketOk(s, t))
    && (forall i, j | 0 <= i < j < |Pending(s)| :: Before(Pending(s)[i], Pending(s)[j]))
    && s.count == |Pending(s)|
    && (s.mounted ==> s.saving == (s.count > 0))
    && s.shown <= s.number
  }

  predicate FieldsOk(s: Saves) {
    forall f | f in s.newest :: FieldOk(s, f)
  }

  /** The fields that have been saved. */
  predicate KeysOk(s: Saves) {
    s.revisions.Keys == s.newest.Keys && forall f | f in s.newest :: IsTracked(f)
  }

  predicate Inv(s: Saves) {
    KeysOk(s) && PendingOk(s) && FailedOk(s) && DroppedOk(s) && BridgeOk(s) && FieldsOk(s)
  }

  /** Only the bridge, or the place between sent and waiting, has changed; or the page is gone, or
      a retry loop has moved on. */
  predicate SameTickets(s: Saves, r: Saves) {
    && Pending(r) == Pending(s) && (r.mounted ==> s.mounted)
    && s == r.(mounted := s.mounted, waiting := s.waiting, sent := s.sent, retries := s.retries, inbox := s.inbox,
               answers := s.answers, stored := s.stored)
  }

  lemma SamePending(s: Saves, r: Saves)
    requires PendingOk(s) && SameTickets(s, r)
    ensures PendingOk(r)
  {
    forall t | t in Pending(s) ensures TicketOk(r, t) {
      assert TicketOk(s, t);
    }
    hide TicketOk, Before;
  }

  lemma SameDropped(s: Saves, r: Saves)
    requires DroppedOk(s) && SameTickets(s, r)
    ensures DroppedOk(r)
  {
    forall f ensures IsPending(r, f) == IsPending(s, f) {
    }
    hide IsPending;
  }

  lemma SameRest(s: Saves, r: Saves)
    requires Inv(s) && SameTickets(s, r)
    ensures KeysOk(r) && PendingOk(r) && FailedOk(r) && DroppedOk(r)
  {
    SamePending(s, r);
    SameDropped(s, r);
    hide PendingOk, DroppedOk, BridgeOk, FieldsOk;
  }

  // ----- saveSettings -----

  lemma Facts(s: Saves, t: Ticket)
    requires PendingOk(s) && t in Pending(s)
    ensures TicketOk(s, t)
  {
  }

  lemma SavePending(s: Saves, request: Request)
    requires Inv(s) && Enabled(s, OnSave(request))
    ensures PendingOk(Save(s, request))
  {
    hide TicketOk, Before, FailedOk, BridgeOk, FieldsOk, DroppedOk;
    var r := Save(s, request);
    var n := r.waiting[|s.waiting|];
    assert Pending(r) == Pending(s) + [n];
    NewTicket(s, request);
    forall t | t in Pending(s) ensures TicketOk(r, t) && Before(t, n) {
      Facts(s, t);
      OlderTicket(s, request, t);
    }
  }

  lemma OlderTicket(s: Saves, request: Request, t: Ticket)
    requires TicketOk(s, t)
    ensures var r := Save(s, request); TicketOk(r, t) && Before(t, r.waiting[|s.waiting|])
  {
  }

  lemma NewTicket(s: Saves, request: Request)
    requires Inv(s) && Enabled(s, OnSave(request))
    ensures TicketOk(Save(s, request), Ticket(request, Bumped(s.revisions, Identities(request)), s.number + 1))
  {
    hide PendingOk, FailedOk, BridgeOk, FieldsOk, DroppedOk;
  }

  lemma SaveFields(s: Saves, request: Request)
    requires Inv(s) && Enabled(s, OnSave(request))
    ensures FieldsOk(Save(s, request))
  {
    hide TicketOk, Before, BridgeOk, FailedOk, DroppedOk;
    var r := Save(s, request);
    var n := r.waiting[|s.waiting|];
    assert Pending(r) == Pending(s) + [n];
    forall f | f in r.newest ensures FieldOk(r, f) {
      if f in n.revisions {
        assert n in Pending(r);
        assert IsPending(r, f);
      } else {
        assert FieldOk(s, f);
        if IsPending(s, f) {
          var t :| t in Pending(s) && f in t.revisions && f in s.revisions && t.revisions[f] == s.revisions[f];
          assert t in Pending(r);
        } else if IsStored(s, f) {
          assert IsStored(r, f);
        }
      }
    }
  }

  lemma SaveDropped(s: Saves, request: Request)
    requires Inv(s) && Enabled(s, OnSave(request))
    ensures DroppedOk(Save(s, request))
  {
    hide TicketOk, Before, BridgeOk, FieldsOk, FailedOk;
    var r := Save(s, request);
    var n := r.waiting[|s.waiting|];
    assert Pending(r) == Pending(s) + [n];
    forall f | f !in n.revisions ensures IsPending(r, f) ==> IsPending(s, f) {
      if IsPending(r, f) {
        var t :| t in Pending(r) && f in t.revisions && f in r.revisions && t.revisions[f] == r.revisions[f];
        assert t in Pending(s);
      }
    }
  }

  lemma SaveKeeps(s: Saves, request: Request)
    requires Inv(s) && Enabled(s, OnSave(request))
    ensures Inv(Save(s, request))
  {
    hide FieldsOk, PendingOk, DroppedOk, FailedOk, BridgeOk, KeysOk, Save;
    SavePending(s, request);
    SaveFields(s, request);
    SaveDropped(s, request);
    SaveRest(s, request);
  }

  lemma SaveRest(s: Saves, request: Request)
    requires Inv(s) && Enabled(s, OnSave(request))
    ensures var r := Save(s, request); KeysOk(r) && FailedOk(r) && BridgeOk(r)
  {
    SaveEntries(s, request);
    SaveBridge(s, request);
  }

  lemma SaveEntries(s: Saves, request: Request)
    requires KeysOk(s) && FailedOk(s)
    ensures KeysOk(Save(s, request)) && FailedOk(Save(s, request))
  {
    assert forall f | f in Identities(request) :: f in request && IsTracked(f);
    hide Identities;
  }

  lemma SaveBridge(s: Saves, request: Request)
    requires BridgeOk(s)
    ensures BridgeOk(Save(s, request))
  {
    hide Bumped, Identities;
  }

  // ----- the bridge -----

  lemma SendKeeps(s: Saves)
    requires Inv(s) && Enabled(s, OnSend)
    ensures Inv(Send(s))
  {
    hide FieldsOk, PendingOk, DroppedOk, FailedOk, BridgeOk, KeysOk;
    assert Pending(Send(s)) == Pending(s);
    SameRest(s, Send(s));
    SendBridge(s);
    SendFields(s);
  }

  lemma SendBridge(s: Saves)
    requires Inv(s) && Enabled(s, OnSend)
    ensures BridgeOk(Send(s))
  {
    hide FieldsOk, FailedOk, DroppedOk;
    var t := s.waiting[0];
    assert t in Pending(s) && TicketOk(s, t) && t in s.waiting;
    forall i | 0 < i < |s.waiting| ensures t.number < s.waiting[i].number {
      assert Pending(s)[0] == t && Pending(s)[i] == s.waiting[i];
      assert Before(Pending(s)[0], Pending(s)[i]);
    }
    assert forall u | u in s.waiting[1..] :: u in s.waiting;
  }

  lemma SendFields(s: Saves)
    requires Inv(s) && Enabled(s, OnSend)
    ensures FieldsOk(Send(s))
  {
    hide BridgeOk, FailedOk, TicketOk, PendingOk, DroppedOk;
    var r := Send(s);
    assert Pending(r) == Pending(s);
    var t := s.waiting[0];
    assert t in Pending(s);
    forall f | f in r.newest ensures FieldOk(r, f) {
      assert FieldOk(s, f);
      if IsStored(s, f) {
        NotAsked(s, t, f);
      }
    }
  }

  lemma NotAsked(s: Saves, t: Ticket, f: Field)
    requires PendingOk(s) && t in Pending(s) && IsTracked(f) && f !in t.revisions
    ensures f !in t.request
  {
    Facts(s, t);
  }

  lemma ServeKeeps(s: Saves, accepted: bool)
    requires Inv(s) && Enabled(s, OnServe(accepted))
    ensures Inv(Serve(s, accepted))
  {
    hide FieldsOk, PendingOk, DroppedOk, FailedOk, BridgeOk, KeysOk;
    assert Pending(Serve(s, accepted)) == Pending(s);
    SameRest(s, Serve(s, accepted));
    ServeBridge(s, accepted);
    ServeFields(s, accepted);
  }

  lemma ServeBridge(s: Saves, accepted: bool)
    requires BridgeOk(s) && s.inbox != []
    ensures BridgeOk(Serve(s, accepted))
  {
    var r := Serve(s, accepted);
    assert s.inbox[0] in s.inbox;
    assert forall u | u in r.inbox :: u in s.inbox;
    if s.sent.Some? {
      assert SentOk(s, s.sent.value);
    }
  }

  lemma ServeFields(s: Saves, accepted: bool)
    requires FieldsOk(s) && s.inbox != []
    ensures FieldsOk(Serve(s, accepted))
  {
    var r, t := Serve(s, accepted), s.inbox[0];
    assert Pending(r) == Pending(s);
    assert forall u | u in r.inbox :: u in s.inbox;
    forall f | f in r.newest ensures FieldOk(r, f) {
      assert FieldOk(s, f);
      if IsStored(s, f) {
        assert t in s.inbox && f !in t.request;
        assert IsStored(r, f);
      } else if IsPending(s, f) {
        assert IsPending(r, f);
      }
    }
  }

  // ----- settling -----

  lemma SettledPending(s: Saves, r: Saves)
    requires Inv(s) && s.sent.Some? && r == Settled(s.(failed := r.failed, shown := r.shown, dropped := r.dropped)) && r.shown <= s.number
    ensures PendingOk(r) && Pending(r) == s.waiting && Pending(s) == [s.sent.value] + s.waiting
  {
    hide FieldsOk, FailedOk, BridgeOk, DroppedOk;
    assert Pending(s)[1..] == s.waiting;
    forall u | u in s.waiting ensures TicketOk(r, u) {
      assert u in Pending(s) && TicketOk(s, u);
    }
    forall i, j | 0 <= i < j < |s.waiting| ensures Before(s.waiting[i], s.waiting[j]) {
      assert Pending(s)[i + 1] == s.waiting[i] && Pending(s)[j + 1] == s.waiting[j];
      assert Before(Pending(s)[i + 1], Pending(s)[j + 1]);
    }
  }

  /** A later save of the same field is the one that counts. */
  lemma NoLater(s: Saves, f: Field)
    requires Inv(s) && s.sent.Some? && f in s.sent.value.revisions && f in s.revisions
    requires s.sent.value.revisions[f] == s.revisions[f]
    ensures forall u | u in s.waiting :: f !in u.revisions
  {
    hide FieldsOk, FailedOk, BridgeOk, DroppedOk;
    forall u | u in s.waiting ensures f !in u.revisions {
      var i :| 0 <= i < |s.waiting| && s.waiting[i] == u;
      assert Pending(s)[0] == s.sent.value && Pending(s)[i + 1] == u;
      assert Before(Pending(s)[0], Pending(s)[i + 1]);
      assert u in Pending(s) && TicketOk(s, u);
    }
  }

  lemma StillPending(s: Saves, r: Saves, f: Field)
    requires s.sent.Some? && f in s.revisions && r.revisions == s.revisions && r.waiting == s.waiting && r.sent.None?
    requires IsPending(s, f)
    requires f in s.sent.value.revisions ==> s.sent.value.revisions[f] != s.revisions[f]
    ensures IsPending(r, f)
  {
    var t :| t in Pending(s) && f in t.revisions && f in s.revisions && t.revisions[f] == s.revisions[f];
    assert t in Pending(r);
  }

  lemma SuccessStores(s: Saves, f: Field)
    requires Inv(s) && Enabled(s, OnSuccess) && s.sent.Some?
    requires f in s.revisions && f in s.sent.value.revisions && s.sent.value.revisions[f] == s.revisions[f]
    ensures IsStored(Succeed(s), f)
  {
    hide FieldsOk, FailedOk, DroppedOk;
    var t := s.sent.value;
    assert t in Pending(s) && TicketOk(s, t);
    NoLater(s, f);
    assert SentOk(s, t);
    assert Pending(Succeed(s)) == s.waiting;
  }

  lemma SucceedKeeps(s: Saves)
    requires Inv(s) && Enabled(s, OnSuccess)
    ensures Inv(Succeed(s))
  {
    hide FieldsOk, PendingOk, DroppedOk, BridgeOk, KeysOk, TicketOk;
    var r := Succeed(s);
    ShownOk(s);
    assert s.sent.value in Pending(s);
    Facts(s, s.sent.value);
    assert s.sent.value.number <= s.number by { NumberOk(s, s.sent.value); }
    SettledPending(s, r);
    SettledRest(s, r);
    SucceedFields(s);
  }

  lemma NumberOk(s: Saves, t: Ticket)
    requires TicketOk(s, t)
    ensures t.number <= s.number
  {
  }

  /** Once a save has settled, with fewer entries. */
  lemma SettledRest(s: Saves, r: Saves)
    requires Inv(s) && s.sent.Some? && r == Settled(s.(failed := r.failed, shown := r.shown))
    requires forall f | f in r.failed :: f in s.failed && r.failed[f] == s.failed[f]
    ensures KeysOk(r) && FailedOk(r) && DroppedOk(r) && BridgeOk(r)
  {
    hide FieldsOk, PendingOk, IsPending, TicketOk, IsTracked;
    forall f | f in s.failed ensures !IsPending(r, f) {
      FewerPending(s, r, f);
    }
  }

  lemma SucceedFields(s: Saves)
    requires Inv(s) && Enabled(s, OnSuccess)
    ensures FieldsOk(Succeed(s))
  {
    hide PendingOk, DroppedOk, BridgeOk, FailedOk, TicketOk;
    var r, t := Succeed(s), s.sent.value;
    assert forall u | u in Pending(r) :: u in Pending(s);
    forall f | f in r.newest ensures FieldOk(r, f) {
      assert FieldOk(s, f);
      if f in t.revisions && t.revisions[f] == s.revisions[f] {
        SuccessStores(s, f);
      } else if IsPending(s, f) {
        StillPending(s, r, f);
      } else if IsStored(s, f) {
        assert IsStored(r, f);
      }
    }
  }

  lemma FailKeeps(s: Saves)
    requires Inv(s) && Enabled(s, OnFailure)
    ensures Inv(Fail(s))
  {
    hide TicketOk, FieldsOk, PendingOk, DroppedOk, BridgeOk, KeysOk, FailedOk;
    var r := Fail(s);
    assert s.sent.value in Pending(s);
    Facts(s, s.sent.value);
    ShownOk(s);
    SettledPending(s, r);
    FailedFields(s);
    FailDropped(s);
    FailFields(s);
    FailRest(s);
  }

  lemma FailRest(s: Saves)
    requires KeysOk(s) && BridgeOk(s) && s.sent.Some?
    ensures KeysOk(Fail(s)) && BridgeOk(Fail(s))
  {
  }

  lemma FailFields(s: Saves)
    requires Inv(s) && s.sent.Some?
    ensures FieldsOk(Fail(s))
  {
    hide PendingOk, DroppedOk, BridgeOk, FailedOk, TicketOk;
    var r, t := Fail(s), s.sent.value;
    assert t in Pending(s);
    assert forall u | u in Pending(r) :: u in Pending(s);
    forall f | f in r.newest ensures FieldOk(r, f) {
      assert FieldOk(s, f);
      if f in t.revisions && t.revisions[f] == s.revisions[f] {
        RequestHas(s, t, f);
      } else if IsPending(s, f) {
        StillPending(s, r, f);
      } else if IsStored(s, f) {
        assert IsStored(r, f);
      }
    }
  }

  lemma RequestHas(s: Saves, t: Ticket, f: Field)
    requires PendingOk(s) && t in Pending(s) && f in t.revisions
    ensures f in t.request && f in s.revisions
  {
    assert TicketOk(s, t);
  }

  lemma FailDropped(s: Saves)
    requires Inv(s) && Enabled(s, OnFailure)
    ensures DroppedOk(Fail(s))
  {
    hide TicketOk, Before, FieldsOk, BridgeOk, FailedOk;
    var r, t := Fail(s), s.sent.value;
    assert t in Pending(s);
    forall f | f in Current(s, t) ensures IsPending(s, f) && !IsPending(r, f) {
      NoLater(s, f);
    }
    forall f | f in s.failed ensures !IsPending(r, f) {
      FewerPending(s, r, f);
    }
  }

  lemma FewerPending(s: Saves, r: Saves, f: Field)
    requires s.sent.Some? && r.sent.None? && r.waiting == s.waiting && r.revisions == s.revisions
    ensures IsPending(r, f) ==> IsPending(s, f)
  {
    if IsPending(r, f) {
      var t :| t in Pending(r) && f in t.revisions && f in r.revisions && t.revisions[f] == r.revisions[f];
      assert t in Pending(s);
    }
  }

  lemma ShownOk(s: Saves)
    requires PendingOk(s)
    ensures s.shown <= s.number
  {
  }

  lemma FailedFields(s: Saves)
    requires FailedOk(s) && s.sent.Some? && TicketOk(s, s.sent.value)
    ensures FailedOk(Fail(s))
  {
  }

  // ----- retrying -----

  /** A retry resends one field, with the newest value of it. */
  lemma RetryResendsNewest(s: Saves, entry: (Field, Failed))
    requires Inv(s) && StillFailed(s, entry)
    ensures entry.0 in s.newest && entry.1.patch == map[entry.0 := s.newest[entry.0]]
    ensures Enabled(s, OnSave(entry.1.patch)) && Save(s, entry.1.patch).newest == s.newest
  {
    hide PendingOk, BridgeOk, FieldsOk, DroppedOk;
    var patch := entry.1.patch;
    assert patch == map[entry.0 := s.newest[entry.0]];
    assert Identities(patch) == {entry.0};
  }

  lemma RetryKeeps(s: Saves, i: nat)
    requires Inv(s) && i < |s.retries|
    ensures Inv(RetryNext(s, i)) && RetryNext(s, i).newest == s.newest
  {
    var entry := s.retries[i];
    var rest := s.(retries := s.retries[..i] + s.retries[i + 1..]);
    SameButRetries(s, rest);
    if StillFailed(s, entry) {
      RetryResendsNewest(rest, entry);
      SaveKeeps(rest, entry.1.patch);
    }
  }

  /** A retry loop takes its entries, or the page goes. */
  lemma SameButRetries(s: Saves, r: Saves)
    requires Inv(s) && (r == s.(retries := r.retries) || r == s.(mounted := false))
    ensures Inv(r)
  {
    hide PendingOk, DroppedOk, FailedOk, KeysOk, BridgeOk, FieldsOk;
    assert Pending(r) == Pending(s);
    SameRest(s, r);
    SameBridge(s, r);
    SameFields(s, r);
  }

  lemma SameBridge(s: Saves, r: Saves)
    requires BridgeOk(s) && SameTickets(s, r) && r.waiting == s.waiting && r.sent == s.sent
    requires r.inbox == s.inbox && r.answers == s.answers && r.stored == s.stored
    ensures BridgeOk(r)
  {
  }

  lemma SameFields(s: Saves, r: Saves)
    requires FieldsOk(s) && SameTickets(s, r) && r.inbox == s.inbox && r.stored == s.stored
    ensures FieldsOk(r)
  {
    forall f | f in r.newest ensures FieldOk(r, f) {
      assert FieldOk(s, f);
      assert IsPending(r, f) == IsPending(s, f) && IsStored(r, f) == IsStored(s, f);
    }
  }

  // ----- every run -----

  lemma StepKeeps(s: Saves, e: Event)
    requires Inv(s) && Enabled(s, e)
    ensures Inv(Step(s, e))
  {
    hide Inv;
    match e
    case OnSave(request) => SaveKeeps(s, request);
    case OnSend => SendKeeps(s);
    case OnServe(accepted) => ServeKeeps(s, accepted);
    case OnSuccess => SucceedKeeps(s);
    case OnFailure => FailKeeps(s);
    case OnRetry(order) => SameButRetries(s, Retry(s, order));
    case OnRetryNext(i) => RetryKeeps(s, i);
    case OnUnmount => SameButRetries(s, s.(mounted := false));
  }

  lemma {:induction false} RunKeeps(s: Saves, events: seq<Event>)
    requires Inv(s) && CanRun(s, events)
    ensures Inv(Run(s, events))
    decreases |events|
  {
    hide Inv;
    if events != [] {
      StepKeeps(s, events[0]);
      RunKeeps(Step(s, events[0]), events[1..]);
    }
  }

  // ----- the steps by name -----

  predicate Kept(r: Saves) {
    Inv(r) && FailedOk(r)
  }

  lemma AfterSave(s: Saves, request: Request)
    requires Inv(s) && Enabled(s, OnSave(request))
    ensures Kept(Save(s, request))
  {
    SaveKeeps(s, request);
  }

  lemma AfterSend(s: Saves)
    requires Inv(s) && Enabled(s, OnSend)
    ensures Kept(Send(s))
  {
    SendKeeps(s);
  }

  lemma AfterSuccess(s: Saves)
    requires Inv(s) && Enabled(s, OnSuccess)
    ensures Kept(Succeed(s))
  {
    SucceedKeeps(s);
  }

  lemma AfterFailure(s: Saves)
    requires Inv(s) && Enabled(s, OnFailure)
    ensures Kept(Fail(s)) && s.sent.value.revisions.Keys <= s.sent.value.request.Keys
  {
    FailKeeps(s);
    assert s.sent.value in Pending(s);
    assert TicketOk(s, s.sent.value);
  }

  lemma AfterRetry(s: Saves, order: seq<Field>)
    requires Inv(s)
    ensures Kept(Retry(s, order))
  {
    SameButRetries(s, Retry(s, order));
  }

  lemma AfterRetryRound(s: Saves, i: nat)
    requires Inv(s) && i < |s.retries|
    ensures Kept(RetryNext(s, i))
    ensures var rest := s.(retries := s.retries[..i] + s.retries[i + 1..]);
            Inv(rest) && (StillFailed(s, s.retries[i]) ==> Enabled(rest, OnSave(s.retries[i].1.patch)))
  {
    RetryKeeps(s, i);
    var rest := s.(retries := s.retries[..i] + s.retries[i + 1..]);
    SameButRetries(s, rest);
    if StillFailed(s, s.retries[i]) {
      RetryResendsNewest(rest, s.retries[i]);
    }
  }

  lemma StartOk()
    ensures Inv(START)
  {
  }

  /** For every order of saves, answers, failures and retries: when no save is pending, each
      field either has a failed entry, holding exactly the newest value at its newest revision,
      or has the newest value stored. */
  lemma SettledFields(events: seq<Event>, f: Field)
    requires CanRun(START, events)
    requires var s := Run(START, events); s.sent.None? && s.waiting == [] && s.mounted && f in s.newest
    ensures f in Run(START, events).revisions
    ensures var s := Run(START, events);
            if f in s.failed then s.failed[f] == Failed(map[f := s.newest[f]], s.revisions[f])
            else f in s.stored && s.stored[f] == s.newest[f]
    ensures var s := Run(START, events); s.count == 0 && !s.saving
  {
    RunKeeps(START, events);
    var s := Run(START, events);
    assert Pending(s) == [];
    assert FieldOk(s, f);
  }

  /** At every moment, not only at rest: an entry is never older than the newest request, and
      nothing an entry is sent again with differs from it. */
  lemma FailedIsNewest(events: seq<Event>, f: Field)
    requires CanRun(START, events) && f in Run(START, events).failed
    ensures var s := Run(START, events);
            f in s.newest && f in s.revisions && s.failed[f] == Failed(map[f := s.newest[f]], s.revisions[f])
  {
    hide PendingOk, BridgeOk, FieldsOk, DroppedOk, Step;
    StartOk();
    RunKeeps(START, events);
  }

  lemma LaterNumber(s: Saves)
    requires Inv(s) && s.sent.Some? && s.waiting != []
    ensures s.sent.value.number < s.number
  {
    hide FieldsOk, FailedOk, BridgeOk, DroppedOk;
    var u := s.waiting[0];
    assert Pending(s)[0] == s.sent.value && Pending(s)[1] == u;
    assert Before(Pending(s)[0], Pending(s)[1]);
    assert u in Pending(s) && TicketOk(s, u);
  }

  /** The answer of a save that is not the last one is never shown. */
  lemma ShownIsLast(s: Saves)
    requires Inv(s) && Enabled(s, OnSuccess) && Succeed(s).shown != s.shown
    ensures s.waiting == [] && Succeed(s).shown == s.number && Pending(Succeed(s)) == []
  {
    hide Inv;
    if s.waiting != [] {
      LaterNumber(s);
    }
  }

  /** A field is dropped exactly by a failure that is handled after the unmount, while the failed
      save is still the field's newest; it stays so until the field is saved again. */
  lemma DroppedIff(s: Saves, e: Event, f: Field)
    requires Enabled(s, e)
    ensures f in Step(s, e).dropped <==>
              (e.OnFailure? && !s.mounted && f in Current(s, s.sent.value))
              || (f in s.dropped && Revision(Step(s, e).revisions, f) == Revision(s.revisions, f))
  {
    hide Save, Revision, Current, PatchesOf, IsTracked, StillFailed, Bumped;
    match e
    case OnSave(request) => DroppedBySave(s, request, f);
    case OnRetryNext(i) => DroppedBySave(s.(retries := s.retries[..i] + s.retries[i + 1..]), s.retries[i].1.patch, f);
    case OnFailure => DroppedByFailure(s);
    case _ =>
  }

  lemma DroppedByFailure(s: Saves)
    requires s.sent.Some?
    ensures Fail(s).revisions == s.revisions
    ensures Fail(s).dropped == if s.mounted then s.dropped else s.dropped + Current(s, s.sent.value)
  {
  }

  lemma DroppedBySave(s: Saves, request: Request, f: Field)
    ensures f in Save(s, request).dropped <==> f in s.dropped && Revision(Save(s, request).revisions, f) == Revision(s.revisions, f)
  {
    hide Identities;
  }

  /** Why the page must stay mounted: a failure reported after it is gone leaves no entry. */
  lemma UnmountLoses(f: Field, value: Value)
    requires IsTracked(f)
    ensures var events := [OnSave(map[f := value]), OnSend, OnUnmount, OnFailure];
            && CanRun(START, events)
            && var s := Run(START, events);
               s.sent.None? && s.waiting == [] && f in s.newest && f !in s.failed && f !in s.stored
  {
    var request := map[f := value];
    GoneAndFailed(f, value);
    hide Save, Send, Fail, Enabled, CanRun, Run;
    var s1 := Save(START, request);
    var s2 := Send(s1);
    var s3 := s2.(mounted := false);
    NoMore(Fail(s3));
    RunNext(s3, OnFailure, []);
    RunNext(s2, OnUnmount, [OnFailure]);
    RunNext(s1, OnSend, [OnUnmount, OnFailure]);
    RunNext(START, OnSave(request), [OnSend, OnUnmount, OnFailure]);
    assert [OnFailure] + [] == [OnFailure] && [OnUnmount] + [OnFailure] == [OnUnmount, OnFailure];
    assert [OnSend] + [OnUnmount, OnFailure] == [OnSend, OnUnmount, OnFailure];
    assert [OnSave(request)] + [OnSend, OnUnmount, OnFailure] == [OnSave(request), OnSend, OnUnmount, OnFailure];
  }

  lemma NoMore(s: Saves)
    ensures CanRun(s, []) && Run(s, []) == s
  {
  }

  lemma GoneAndFailed(f: Field, value: Value)
    requires IsTracked(f)
    ensures var s1 := Save(START, map[f := value]);
            && Enabled(START, OnSave(map[f := value])) && Enabled(s1, OnSend)
            && var s3 := Send(s1).(mounted := false);
               && Enabled(Send(s1), OnUnmount) && Enabled(s3, OnFailure)
               && var s := Fail(s3);
                  s.sent.None? && s.waiting == [] && f in s.newest && f !in s.failed && f !in s.stored
  {
    assert f in Identities(map[f := value]);
  }

  lemma RunNext(s: Saves, e: Event, rest: seq<Event>)
    requires Enabled(s, e) && CanRun(Step(s, e), rest)
    ensures CanRun(s, [e] + rest) && Run(s, [e] + rest) == Run(Step(s, e), rest)
  {
    hide Enabled, Step;
    assert ([e] + rest)[1..] == rest;
  }
}
