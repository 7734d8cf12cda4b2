/** The auto-save protocol of App.tsx (saveSettings, retrySettingsSave): every field of the user
    configuration has a revision, saves are sent one after the other, and what failed is kept
    field by field until it is retried or overwritten. Values and steps. */
module SettingsModel {
  import opened Wrappers

  datatype Field = DefaultModel | DefaultPermissionMode | Search(name: string) | ToolLimit(name: string)
    | Provider(name: string) | Model(name: string) | Rename(name: string)

  type Value = string
  type Request = map<Field, Value>

  // ----- which fields are tracked -----

  predicate IsGroupField(f: Field) {
    f.Provider? || f.Model? || f.Rename?
  }

  predicate IsAutoSave(request: Request) {
    forall f | f in request :: !IsGroupField(f)
  }

  /** A field whose writes have revisions; the search key is a secret and never has. */
  predicate IsTracked(f: Field) {
    f.DefaultModel? || f.DefaultPermissionMode? || (f.Search? && f.name != "api_key") || f.ToolLimit?
  }

  function Identities(request: Request): set<Field> {
    if IsAutoSave(request) then set f | f in request && IsTracked(f) else {}
  }

  // ----- the state -----

  /** One call of saveSettings: its request, the revisions it was given, and its own number. */
  datatype Ticket = Ticket(request: Request, revisions: map<Field, nat>, number: nat)

  /** A pending entry of the view: one field's patch and the revision it had. */
  datatype Failed = Failed(patch: Request, revision: nat)

  /** The renderer's refs; the bridge's inbox, answers and stored configuration; and, to state
      what is promised, the value of the newest request of each field, and the fields whose newest
      save has failed once the page was gone. `waiting` is the chain behind `settingsSaveTailRef`,
      `sent` the save that is on its way. */
  datatype Saves = Saves(
    revisions: map<Field, nat>,
    failed: map<Field, Failed>,
    number: nat,
    count: nat,
    saving: bool,
    mounted: bool,
    shown: nat,
    waiting: seq<Ticket>,
    sent: Option<Ticket>,
    retries: seq<(Field, Failed)>,
    inbox: seq<Ticket>,
    answers: map<nat, bool>,
    stored: map<Field, Value>,
    newest: map<Field, Value>,
    dropped: set<Field>)

  const START := Saves(map[], map[], 0, 0, false, true, 0, [], None, [], [], map[], map[], map[], {})

  function Revision(revisions: map<Field, nat>, f: Field): nat {
    if f in revisions then revisions[f] else 0
  }

  function Bumped(revisions: map<Field, nat>, fields: set<Field>): map<Field, nat> {
    map f | f in fields :: Revision(revisions, f) + 1
  }

  // ----- the steps -----

  /** The synchronous part of saveSettings. */
  function Save(s: Saves, request: Request): Saves {
    var fields := Identities(request);
    var mine := Bumped(s.revisions, fields);
    s.(revisions := s.revisions + mine,
       failed := s.failed - fields,
       number := s.number + 1,
       count := s.count + 1,
       saving := true,
       waiting := s.waiting + [Ticket(request, mine, s.number + 1)],
       newest := s.newest + map f | f in fields :: request[f],
       dropped := s.dropped - fields)
  }

  /** The tail of the chain is free: the next save is sent. */
  function Send(s: Saves): Saves
    requires s.sent.None? && s.waiting != []
  {
    s.(sent := Some(s.waiting[0]), waiting := s.waiting[1..], inbox := s.inbox + [s.waiting[0]])
  }

  /** The bridge takes the next save, in the order they came, and applies or refuses it. */
  function Serve(s: Saves, accepted: bool): Saves
    requires s.inbox != []
  {
    var t := s.inbox[0];
    s.(inbox := s.inbox[1..],
       answers := s.answers[t.number := accepted],
       stored := if accepted then s.stored + t.request else s.stored)
  }

  /** The fields of a ticket that no later save has touched. */
  function Current(s: Saves, t: Ticket): set<Field> {
    set f | f in t.revisions && f in s.revisions && s.revisions[f] == t.revisions[f]
  }

  function Settled(s: Saves): Saves {
    var left := if s.count > 0 then s.count - 1 else 0;
    s.(sent := None, count := left, saving := if s.mounted then left > 0 else s.saving)
  }

  function Succeed(s: Saves): Saves
    requires s.sent.Some?
  {
    var t := s.sent.value;
    Settled(s.(failed := s.failed - Current(s, t),
               shown := if s.mounted && t.number == s.number then t.number else s.shown))
  }

  /** The patches of some fields of a ticket. */
  function PatchesOf(revisions: map<Field, nat>, t: Ticket, fields: set<Field>): map<Field, Failed>
    requires fields <= t.revisions.Keys
  {
    map f | f in fields && f in revisions && revisions[f] == t.revisions[f] && f in t.request ::
      Failed(map[f := t.request[f]], t.revisions[f])
  }

  function Fail(s: Saves): Saves
    requires s.sent.Some?
  {
    var t := s.sent.value;
    Settled(if s.mounted then s.(failed := s.failed + PatchesOf(s.revisions, t, t.revisions.Keys))
            else s.(dropped := s.dropped + Current(s, t)))
  }

  /** retrySettingsSave takes the failed entries as they are now. */
  function Retry(s: Saves, order: seq<Field>): Saves {
    s.(retries := s.retries + Entries(s.failed, order))
  }

  function Entries(failed: map<Field, Failed>, order: seq<Field>): seq<(Field, Failed)> {
    if order == [] then []
    else (if order[0] in failed then [(order[0], failed[order[0]])] else []) + Entries(failed, order[1..])
  }

  /** An entry is sent again only if it is still the entry of its field, at its revision. */
  predicate StillFailed(s: Saves, entry: (Field, Failed)) {
    entry.0 in s.failed && s.failed[entry.0] == entry.1 && Revision(s.revisions, entry.0) == entry.1.revision
  }

  /** One round of a retry loop; several loops may be under way. */
  function RetryNext(s: Saves, i: nat): Saves
    requires i < |s.retries|
  {
    var entry := s.retries[i];
    var rest := s.(retries := s.retries[..i] + s.retries[i + 1..]);
    if StillFailed(s, entry) then Save(rest, entry.1.patch) else rest
  }

  datatype Event = OnSave(request: Request) | OnSend | OnServe(accepted: bool) | OnSuccess | OnFailure
    | OnRetry(order: seq<Field>) | OnRetryNext(i: nat) | OnUnmount

  /** A success is only reported for a save the bridge has applied; a failure may be reported
      at any time after the save was sent, whether or not it was or will be applied. Saves of
      provider groups must leave the tracked fields alone. */
  predicate Enabled(s: Saves, e: Event) {
    match e
    case OnSave(request) => IsAutoSave(request) || forall f | f in request :: !IsTracked(f)
    case OnSend => s.sent.None? && s.waiting != []
    case OnServe(_) => s.inbox != []
    case OnSuccess => s.sent.Some? && s.sent.value.number in s.answers && s.answers[s.sent.value.number]
    case OnFailure => s.sent.Some?
    case OnRetry(_) => true
    case OnRetryNext(i) => i < |s.retries|
    case OnUnmount => true
  }

  function Step(s: Saves, e: Event): Saves
    requires Enabled(s, e)
  {
    match e
    case OnSave(request) => Save(s, request)
    case OnSend => Send(s)
    case OnServe(accepted) => Serve(s, accepted)
    case OnSuccess => Succeed(s)
    case OnFailure => Fail(s)
    case OnRetry(order) => Retry(s, order)
    case OnRetryNext(i) => RetryNext(s, i)
    case OnUnmount => s.(mounted := false)
  }

  predicate CanRun(s: Saves, events: seq<Event>)
    decreases |events|
  {
    events == [] || (Enabled(s, events[0]) && CanRun(Step(s, events[0]), events[1..]))
  }

  function Run(s: Saves, events: seq<Event>): Saves
    requires CanRun(s, events)
    decreases |events|
  {
    if events == [] then s else Run(Step(s, events[0]), events[1..])
  }
}
