/** DesktopPreferencesStore of desktop-preferences.ts: writes are chained, each reads the stored
    document, changes one preference and replaces the file. Values and steps. */
module PreferenceModel {
  import opened Wrappers
  import opened PreferenceValues
  import opened PreferenceRoundTrip

  /** What the path holds: nothing, text that is not JSON, or JSON. */
  datatype File = Missing | Garbage | Json(v: Js)

  /** One call of `write`; the key may be none of the known ones. */
  datatype Request = Request(id: nat, key: Option<Key>, value: Js)

  /** The write under way, with the document it is about to store. */
  datatype Job = Job(request: Request, next: Doc)

  datatype Rename = Renamed | Eperm | OtherError

  datatype Store = Store(file: File, calls: nat, waiting: seq<Request>, running: Option<Job>,
                         results: map<nat, Option<Doc>>, done: seq<Request>)

  function Start(file: File): Store {
    Store(file, 0, [], None, map[], [])
  }

  /** `read`: a file that is missing, unreadable, or not a valid document reads as the defaults. */
  function ReadFile(file: File): Doc {
    if !file.Json? then DEFAULTS
    else var r := ValidateDocument(file.v); if r.Some? then r.value else DEFAULTS
  }

  /** The document a write makes of the one it has read; none if the key or the value is refused. */
  function Applied(current: Doc, r: Request): Option<Doc> {
    if r.key.None? then None
    else
      var p := Normalize(r.key.value, r.value, current.windowBounds);
      if p.None? then None else Some(Put(current, p.value))
  }

  /** Three retries, on EPERM only: at most four attempts. */
  const MAX_ATTEMPTS := 4

  /** The first attempt that is not refused with EPERM decides; four refusals fail. */
  predicate Replaces(outcome: nat -> Rename) {
    exists k: nat | k < MAX_ATTEMPTS :: outcome(k).Renamed? && forall j: nat | j < k :: outcome(j).Eperm?
  }

  /** replaceDocument: the loop with its retries. */
  method ReplaceDocument(outcome: nat -> Rename) returns (replaced: bool, attempts: nat)
    ensures replaced <==> Replaces(outcome)
    ensures 1 <= attempts <= MAX_ATTEMPTS
  {
    attempts := 1;
    while true
      invariant 1 <= attempts <= MAX_ATTEMPTS
      invariant forall j: nat | j < attempts - 1 :: outcome(j).Eperm?
      decreases MAX_ATTEMPTS - attempts
    {
      var result := outcome(attempts - 1);
      if result.Renamed? {
        return true, attempts;
      }
      if !result.Eperm? || attempts == MAX_ATTEMPTS {
        return false, attempts;
      }
      attempts := attempts + 1;
    }
  }

  // ----- steps -----

  function Write(s: Store, key: Option<Key>, value: Js): Store {
    s.(calls := s.calls + 1, waiting := s.waiting + [Request(s.calls, key, value)])
  }

  /** The chain reaches the next write: it reads the document (or fails to) and changes it. */
  function Begin(s: Store, readable: bool): Store
    requires s.running.None? && s.waiting != []
  {
    var r := s.waiting[0];
    var next := Applied(if readable then ReadFile(s.file) else DEFAULTS, r);
    var rest := s.(waiting := s.waiting[1..]);
    if next.None? || ValidateDocument(DocJs(next.value)).None? then rest.(results := s.results[r.id := None])
    else rest.(running := Some(Job(r, next.value)))
  }

  /** The temporary file is written, or not, and put in place, or not. */
  function Finish(s: Store, written: bool, outcome: nat -> Rename): Store
    requires s.running.Some?
  {
    var job := s.running.value;
    var validated := ValidateDocument(DocJs(job.next));
    var off := s.(running := None);
    if validated.None? || !written || !Replaces(outcome) then off.(results := s.results[job.request.id := None])
    else
      off.(file := Json(DocJs(validated.value)), results := s.results[job.request.id := Some(job.next)],
           done := s.done + [job.request])
  }

  datatype Event = OnWrite(key: Option<Key>, value: Js) | OnBegin(readable: bool) | OnFinish(written: bool, outcome: nat -> Rename)

  predicate Enabled(s: Store, e: Event) {
    match e
    case OnWrite(_, _) => true
    case OnBegin(_) => s.running.None? && s.waiting != []
    case OnFinish(_, _) => s.running.Some?
  }

  function Step(s: Store, e: Event): Store
    requires Enabled(s, e)
  {
    match e
    case OnWrite(key, value) => Write(s, key, value)
    case OnBegin(readable) => Begin(s, readable)
    case OnFinish(written, outcome) => Finish(s, written, outcome)
  }

  predicate CanRun(s: Store, events: seq<Event>)
    decreases |events|
  {
    events == [] || (Enabled(s, events[0]) && CanRun(Step(s, events[0]), events[1..]))
  }

  function Run(s: Store, events: seq<Event>): Store
    requires CanRun(s, events)
    decreases |events|
  {
    if events == [] then s else Run(Step(s, events[0]), events[1..])
  }
}
