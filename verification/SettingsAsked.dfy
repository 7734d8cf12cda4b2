/** The auto-save protocol by what the user asked for: the last value given to each field, read off
    the events alone, is what is stored or listed as failed in the end. */
module SettingsAsked {
  import opened Wrappers
  import opened SettingsModel
  import opened SettingsSafety

  /** The fields that save themselves. */
  predicate IsSetting(f: Field) {
    match f
    case DefaultModel => true
    case DefaultPermissionMode => true
    case Search(name) => name != "api_key"
    case ToolLimit(_) => true
    case Provider(_) => false
    case Model(_) => false
    case Rename(_) => false
  }

  /** A request that touches no provider, no model and no name of one. */
  predicate SavesItself(request: Request) {
    forall f | f in request :: IsSetting(f) || f == Search("api_key")
  }

  /** The last value that a save of the user gave to the field. */
  function LastAsked(events: seq<Event>, f: Field): Option<Value> {
    if events == [] then None
    else
      var later := LastAsked(events[1..], f);
      if later.Some? then later
      else if events[0].OnSave? && f in events[0].request then Some(events[0].request[f]) else None
  }

  function Newest(s: Saves, f: Field): Option<Value> {
    if f in s.newest then Some(s.newest[f]) else None
  }

  lemma SettingsAreTracked(f: Field)
    ensures IsSetting(f) <==> IsTracked(f)
  {
  }

  lemma FieldsOf(request: Request)
    requires SavesItself(request)
    ensures IsAutoSave(request) && Identities(request) == set f | f in request && IsSetting(f)
  {
    forall f ensures IsSetting(f) <==> IsTracked(f) {
      SettingsAreTracked(f);
    }
  }

  /** A save that touches a provider, a model or the name of one has no revisions, and leaves all entries
      and all other saves as current as they were. */
  lemma GroupsHaveNoRevisions(s: Saves, request: Request, f: Field)
    requires f in request && (f.Provider? || f.Model? || f.Rename?)
    ensures var r := Save(s, request);
            && r.waiting == s.waiting + [Ticket(request, map[], s.number + 1)]
            && r.revisions == s.revisions && r.failed == s.failed && r.newest == s.newest
  {
    assert !IsAutoSave(request);
    assert Bumped(s.revisions, {}) == map[];
  }

  lemma SaveAsks(s: Saves, request: Request, f: Field)
    requires Enabled(s, OnSave(request)) && IsSetting(f)
    ensures Newest(Save(s, request), f) == if f in request then Some(request[f]) else Newest(s, f)
  {
    SettingsAreTracked(f);
  }

  lemma OthersAskNothing(s: Saves, e: Event, f: Field)
    requires Inv(s) && Enabled(s, e) && !e.OnSave?
    ensures Newest(Step(s, e), f) == Newest(s, f)
  {
    hide Inv, Save, StillFailed, Current, PatchesOf;
    if e.OnRetryNext? {
      var rest := s.(retries := s.retries[..e.i] + s.retries[e.i + 1..]);
      SameButRetries(s, rest);
      if StillFailed(s, s.retries[e.i]) {
        assert StillFailed(rest, s.retries[e.i]) by {
          StillSame(s, rest, s.retries[e.i]);
        }
        RetryResendsNewest(rest, s.retries[e.i]);
      }
    }
  }

  lemma StillSame(s: Saves, r: Saves, entry: (Field, Failed))
    requires StillFailed(s, entry) && r.failed == s.failed && r.revisions == s.revisions
    ensures StillFailed(r, entry)
  {
  }

  lemma {:induction false} NewestIsAsked(s: Saves, events: seq<Event>, f: Field)
    requires Inv(s) && CanRun(s, events) && IsSetting(f)
    ensures Newest(Run(s, events), f) == if LastAsked(events, f).Some? then LastAsked(events, f) else Newest(s, f)
    decreases |events|
  {
    hide Inv, Step, Enabled, IsSetting, Newest;
    if events != [] {
      var t := Step(s, events[0]);
      StepKeeps(s, events[0]);
      NewestIsAsked(t, events[1..], f);
      if events[0].OnSave? {
        AskedStep(s, events[0].request, f);
      } else {
        OthersAskNothing(s, events[0], f);
      }
    }
  }

  lemma AskedStep(s: Saves, request: Request, f: Field)
    requires Enabled(s, OnSave(request)) && IsSetting(f)
    ensures Newest(Step(s, OnSave(request)), f) == if f in request then Some(request[f]) else Newest(s, f)
  {
    SaveAsks(s, request, f);
  }

  /** Over every run: when no save is pending, each field that was ever asked for is stored with the
      last value asked for it, or its entry holds exactly that value; whatever was superseded, refused,
      failed or retried on the way. */
  lemma SettledAsAsked(events: seq<Event>, f: Field)
    requires CanRun(START, events) && IsSetting(f) && LastAsked(events, f).Some?
    requires var s := Run(START, events); s.sent.None? && s.waiting == [] && s.mounted
    ensures var s, v := Run(START, events), LastAsked(events, f).value;
            if f in s.failed then s.failed[f].patch == map[f := v] else f in s.stored && s.stored[f] == v
  {
    StartOk();
    NewestIsAsked(START, events, f);
    hide CanRun, Run, IsSetting, LastAsked;
    SettledFields(events, f);
  }

  /** No entry is made for anything else: a secret, or a field of a provider group. */
  lemma OnlySettingsAreListed(events: seq<Event>, f: Field)
    requires CanRun(START, events) && f in Run(START, events).failed
    ensures IsSetting(f) && LastAsked(events, f).Some? && Run(START, events).failed[f].patch == map[f := LastAsked(events, f).value]
  {
    StartOk();
    RunKeeps(START, events);
    FailedIsNewest(events, f);
    ListedIsTracked(Run(START, events), f);
    SettingsAreTracked(f);
    hide CanRun, Run, IsSetting, LastAsked, Inv;
    NewestIsAsked(START, events, f);
  }

  lemma ListedIsTracked(s: Saves, f: Field)
    requires Inv(s) && f in s.failed
    ensures IsTracked(f)
  {
    hide PendingOk, DroppedOk, BridgeOk, FieldsOk;
  }

  // ----- one save, from its beginning to its end -----

  predicate AtRest(s: Saves) {
    s.mounted && s.sent.None? && s.waiting == [] && s.inbox == []
  }

  /** The save is on its way, alone. */
  predicate OnItsWay(s: Saves, b: Saves, request: Request, fields: set<Field>) {
    && b.mounted && b.waiting == [] && b.sent.Some? && b.inbox == [b.sent.value] && b.count == 1 && b.sent.value.number == b.number > s.number
    && b.sent.value.request == request && b.sent.value.revisions.Keys == fields <= b.revisions.Keys
    && (forall f | f in fields :: b.revisions[f] == b.sent.value.revisions[f])
    && b.stored == s.stored && b.shown == s.shown && b.failed == s.failed - fields
  }

  lemma SaveIsSent(s: Saves, request: Request)
    requires s.count == 0 && AtRest(s) && SavesItself(request)
    ensures Enabled(s, OnSave(request))
    ensures var a := Step(s, OnSave(request));
            a.saving && Enabled(a, OnSend) && OnItsWay(s, Step(a, OnSend), request, set f | f in request && IsSetting(f))
  {
    FieldsOf(request);
    hide IsAutoSave, IsSetting, Identities, IsTracked;
  }

  lemma NothingCounted(s: Saves)
    requires Inv(s) && AtRest(s)
    ensures s.count == 0 && s.shown <= s.number
  {
    hide BridgeOk, FieldsOk, DroppedOk, KeysOk, TicketOk, Before;
    assert Pending(s) == [];
  }

  /** At rest a save goes through: it is stored, its entries are gone, and its answer is shown. */
  lemma SaveGoesThrough(s: Saves, request: Request)
    requires Inv(s) && AtRest(s) && SavesItself(request)
    ensures Enabled(s, OnSave(request))
    ensures var a := Step(s, OnSave(request));
            && a.saving && Enabled(a, OnSend)
            && var b := Step(a, OnSend);
               && Enabled(b, OnServe(true))
               && var c := Step(b, OnServe(true));
                  && Enabled(c, OnSuccess)
                  && var t := Step(c, OnSuccess);
                     && AtRest(t) && t.stored == s.stored + request && t.shown == t.number && t.shown > s.shown && !t.saving
                     && forall f :: f in t.failed <==> f in s.failed && !(f in request && IsSetting(f))
  {
    NothingCounted(s);
    SaveIsSent(s, request);
    hide Inv, Save, Send, IsAutoSave, IsSetting;
    assert Step(Step(s, OnSave(request)), OnSend) == Send(Save(s, request));
  }

  lemma RefusalLists(s: Saves, b: Saves, request: Request, fields: set<Field>)
    requires OnItsWay(s, b, request, fields) && fields <= request.Keys
    ensures Enabled(b, OnServe(false))
    ensures var c := Step(b, OnServe(false));
            && Enabled(c, OnFailure)
            && var t := Step(c, OnFailure);
               && AtRest(t) && t.stored == s.stored && t.shown == s.shown && !t.saving
               && (forall f | f in fields :: f in t.failed && t.failed[f].patch == map[f := request[f]])
               && forall f | f !in fields :: f in t.failed <==> f in s.failed
  {
    var patches := PatchesOf(b.revisions, b.sent.value, fields);
    assert patches.Keys == fields;
    hide PatchesOf;
    assert Fail(Serve(b, false)).failed == b.failed + patches;
  }

  /** And a save that is refused leaves an entry for each of its fields, with the value that was
      asked for, and for no other. */
  lemma RefusedIsListed(s: Saves, request: Request)
    requires Inv(s) && AtRest(s) && SavesItself(request)
    ensures Enabled(s, OnSave(request))
    ensures var a := Step(s, OnSave(request));
            && Enabled(a, OnSend)
            && var b := Step(a, OnSend);
               && Enabled(b, OnServe(false))
               && var c := Step(b, OnServe(false));
                  && Enabled(c, OnFailure)
                  && var t := Step(c, OnFailure);
                     && AtRest(t) && t.stored == s.stored && t.shown == s.shown && !t.saving
                     && (forall f | f in request && IsSetting(f) :: f in t.failed && t.failed[f].patch == map[f := request[f]])
                     && forall f | !(f in request && IsSetting(f)) :: f in t.failed <==> f in s.failed
  {
    NothingCounted(s);
    SaveIsSent(s, request);
    hide Inv, Save, Send, IsAutoSave, IsSetting;
    var b := Step(Step(s, OnSave(request)), OnSend);
    RefusalLists(s, b, request, set f | f in request && IsSetting(f));
    hide Step, Enabled, AtRest, OnItsWay;
  }

  /** Once the page is gone it shows nothing new, not even that a save is over, and no entry is added. */
  lemma GoneShowsNothing(s: Saves, e: Event)
    requires !s.mounted && Enabled(s, e)
    ensures var t := Step(s, e);
            && !t.mounted && t.shown == s.shown && (s.saving ==> t.saving)
            && forall f | f in t.failed :: f in s.failed && t.failed[f] == s.failed[f]
  {
  }

  // ----- what the bridge stores -----

  function NewlyAccepted(s: Saves, e: Event): seq<Request>
    requires Enabled(s, e)
  {
    if e == OnServe(true) then [s.inbox[0].request] else []
  }

  /** The requests that the bridge accepts in a run, in order. */
  function AcceptedIn(s: Saves, events: seq<Event>): seq<Request>
    requires CanRun(s, events)
    decreases |events|
  {
    if events == [] then []
    else NewlyAccepted(s, events[0]) + AcceptedIn(Step(s, events[0]), events[1..])
  }

  function Overlaid(stored: map<Field, Value>, requests: seq<Request>): map<Field, Value>
    decreases |requests|
  {
    if requests == [] then stored else Overlaid(stored + requests[0], requests[1..])
  }

  lemma OnlyServingStores(s: Saves, e: Event)
    requires Enabled(s, e)
    ensures Step(s, e).stored == Overlaid(s.stored, NewlyAccepted(s, e))
  {
    hide Save, StillFailed, Current, PatchesOf;
    if e.OnRetryNext? || e.OnSave? {
      SaveStoresNothing(s, e);
    }
  }

  lemma SaveStoresNothing(s: Saves, e: Event)
    requires Enabled(s, e) && (e.OnRetryNext? || e.OnSave?)
    ensures Step(s, e).stored == s.stored
  {
  }

  /** Exactly what was accepted is stored, in the order in which it was accepted. */
  lemma {:induction false} StoredIsAccepted(s: Saves, events: seq<Event>)
    requires CanRun(s, events)
    ensures Run(s, events).stored == Overlaid(s.stored, AcceptedIn(s, events))
    decreases |events|
  {
    hide Step, Enabled;
    if events != [] {
      var t := Step(s, events[0]);
      OnlyServingStores(s, events[0]);
      StoredIsAccepted(t, events[1..]);
      OverlaidApart(s.stored, NewlyAccepted(s, events[0]), AcceptedIn(t, events[1..]));
    }
  }

  lemma OverlaidApart(stored: map<Field, Value>, first: seq<Request>, rest: seq<Request>)
    requires |first| <= 1
    ensures Overlaid(stored, first + rest) == Overlaid(Overlaid(stored, first), rest)
  {
    if first == [] {
      assert first + rest == rest;
    } else {
      assert (first + rest)[1..] == rest;
    }
  }
}
