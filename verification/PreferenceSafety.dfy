/** What the chained writes of PreferenceModel keep, over every run. */
module PreferenceSafety {
  import opened Wrappers
  import opened PreferenceValues
  import opened PreferenceRoundTrip
  import opened PreferenceModel

  /** The writes that succeeded, one after the other. */
  function ApplyAll(doc: Doc, requests: seq<Request>): Doc {
    if requests == [] then doc
    else
      var before := ApplyAll(doc, requests[..|requests| - 1]);
      var next := Applied(before, requests[|requests| - 1]);
      if next.Some? then next.value else before
  }

  predicate InOrder(requests: seq<Request>) {
    forall i, j | 0 <= i < j < |requests| :: requests[i].id < requests[j].id
  }

  /** Done, then running, then waiting: in the order of the calls. */
  function Line(s: Store): seq<Request> {
    s.done + ((if s.running.Some? then [s.running.value.request] else []) + s.waiting)
  }

  predicate Has(requests: seq<Request>, id: nat) {
    exists r | r in requests :: r.id == id
  }

  predicate Ordered(s: Store) {
    InOrder(Line(s)) && (forall r | r in Line(s) :: r.id < s.calls) && forall id | id in s.results :: id < s.calls
  }

  predicate Unsettled(s: Store) {
    && (s.running.Some? ==> DocOk(s.running.value.next) && s.running.value.request.id !in s.results)
    && (forall r | r in s.waiting :: r.id !in s.results)
  }

  /** The writes done are those whose callers were told of success. */
  predicate Told(done: seq<Request>, results: map<nat, Option<Doc>>) {
    && (forall r | r in done :: r.id in results && results[r.id].Some?)
    && (forall id | id in results && results[id].Some? :: Has(done, id))
  }

  /** Every call has its result, or is in the line. */
  predicate Accounted(s: Store) {
    forall id: nat | id < s.calls && id !in s.results :: Has(Line(s), id)
  }

  predicate Inv(s: Store) {
    Ordered(s) && Unsettled(s) && Told(s.done, s.results) && Accounted(s)
  }

  lemma ReadIsOk(file: File)
    ensures DocOk(ReadFile(file))
  {
    hide DocOk, ValidateDocument;
    DefaultsOk();
    if file.Json? {
      ValidatedOk(file.v);
    }
  }

  lemma AppliedOk(current: Doc, r: Request)
    requires DocOk(current)
    ensures Applied(current, r).Some? ==> DocOk(Applied(current, r).value)
  {
    hide Normalize;
    assert PrefOk(Get(current, WindowBounds));
    if r.key.Some? {
      NormalizeOk(r.key.value, r.value, current.windowBounds);
      var p := Normalize(r.key.value, r.value, current.windowBounds);
      if p.Some? {
        PutOk(current, p.value);
      }
    }
  }

  /** writeDocument's own validation never refuses, and changes nothing. */
  lemma SecondValidation(readable: bool, file: File, r: Request)
    ensures var next := Applied(if readable then ReadFile(file) else DEFAULTS, r);
            next.Some? ==> DocOk(next.value) && ValidateDocument(DocJs(next.value)) == next
  {
    hide DocOk, ValidateDocument, Applied;
    ReadIsOk(file);
    DefaultsOk();
    var current := if readable then ReadFile(file) else DEFAULTS;
    AppliedOk(current, r);
    var next := Applied(current, r);
    if next.Some? {
      DocumentBack(next.value);
    }
  }

  lemma WriteKeeps(s: Store, key: Option<Key>, value: Js)
    requires Inv(s)
    ensures Inv(Write(s, key, value))
  {
    hide DocOk, Told;
    var r := Write(s, key, value);
    var q := Request(s.calls, key, value);
    assert Line(r) == Line(s) + [q];
    assert Ordered(r) && Unsettled(r) by {
      hide Has, Accounted;
    }
    AllAccounted(s, r);
  }

  /** Another line, which leaves out only calls that have their results. */
  lemma AllAccounted(s: Store, r: Store)
    requires Accounted(s) && s.calls <= r.calls <= s.calls + 1 && s.results.Keys <= r.results.Keys
    requires forall x | x in Line(s) :: x in Line(r) || x.id in r.results
    requires r.calls > s.calls ==> Has(Line(r), s.calls)
    ensures Accounted(r)
  {
    hide Line;
    forall id: nat | id < r.calls && id !in r.results ensures Has(Line(r), id) {
      if id < s.calls {
        var x :| x in Line(s) && x.id == id;
        assert x in Line(r);
      }
    }
  }

  lemma InOrderTail(a: seq<Request>, x: Request, b: seq<Request>)
    requires InOrder(a + ([x] + b))
    ensures InOrder(a + b) && InOrder((a + [x]) + b)
    ensures (forall r | r in b :: r.id > x.id) && (forall r | r in a :: r.id < x.id)
  {
    var l := a + ([x] + b);
    assert (a + [x]) + b == l;
    assert l[|a|] == x;
    forall r | r in b ensures r.id > x.id {
      var i :| 0 <= i < |b| && b[i] == r;
      assert l[|a| + 1 + i] == r;
    }
    forall r | r in a ensures r.id < x.id {
      var i :| 0 <= i < |a| && a[i] == r;
      assert l[i] == r;
    }
    forall i, j | 0 <= i < j < |a + b| ensures (a + b)[i].id < (a + b)[j].id {
      assert (a + b)[i] == if i < |a| then l[i] else l[i + 1];
      assert (a + b)[j] == if j < |a| then l[j] else l[j + 1];
    }
  }

  lemma BeginKeeps(s: Store, readable: bool)
    requires Inv(s) && Enabled(s, OnBegin(readable))
    ensures Inv(Begin(s, readable))
  {
    hide DocOk, ValidateDocument, Applied, ReadFile, DocJs, InOrder;
    var r := Begin(s, readable);
    var q, rest := s.waiting[0], s.waiting[1..];
    SecondValidation(readable, s.file, q);
    assert s.waiting == [q] + rest && [] + s.waiting == s.waiting && [] + rest == rest;
    assert Line(s) == s.done + ([q] + rest);
    InOrderTail(s.done, q, rest);
    if r.running.Some? {
      StartedKeeps(s, r, q, rest);
    } else {
      assert Line(r) == s.done + rest;
      RefusedKeeps(s, r, q);
    }
  }

  lemma StartedKeeps(s: Store, r: Store, q: Request, rest: seq<Request>)
    requires Inv(s) && s.running.None? && s.waiting == [q] + rest && r.running.Some?
    requires r == s.(waiting := rest, running := r.running) && r.running.value.request == q && DocOk(r.running.value.next)
    ensures Inv(r)
  {
    hide InOrder, DocOk, Has, Told;
    assert [] + s.waiting == s.waiting;
    assert Line(r) == Line(s);
    assert q in s.waiting;
  }

  /** A call leaves the line with a refusal, from the front of the waiting ones or as the running one. */
  lemma RefusedKeeps(s: Store, r: Store, q: Request)
    requires Inv(s) && Line(s) == s.done + ([q] + r.waiting) && Line(r) == s.done + r.waiting
    requires r == s.(running := None, waiting := r.waiting, results := s.results[q.id := None])
    requires InOrder(s.done + r.waiting) && forall x | x in r.waiting :: x.id > q.id && x in s.waiting
    requires forall x | x in s.done :: x.id < q.id
    ensures Inv(r)
  {
    RefusalTold(s.done, s.results, q);
    RefusedLine(s, r, q);
    hide InOrder, DocOk, Has, Told, Line;
    assert Accounted(r) by {
      hide Ordered, Unsettled;
      AllAccounted(s, r);
    }
    hide Accounted;
  }

  lemma RefusedLine(s: Store, r: Store, q: Request)
    requires Line(s) == s.done + ([q] + r.waiting) && Line(r) == s.done + r.waiting
    ensures q in Line(s) && forall x | x in Line(s) :: x in Line(r) || x == q
    ensures forall x | x in Line(r) :: x in Line(s)
  {
    hide Line;
  }

  lemma RefusalTold(done: seq<Request>, results: map<nat, Option<Doc>>, q: Request)
    requires Told(done, results) && forall x | x in done :: x.id < q.id
    ensures Told(done, results[q.id := None])
  {
    hide Has;
  }

  lemma FinishKeeps(s: Store, written: bool, outcome: nat -> Rename)
    requires Inv(s) && Enabled(s, OnFinish(written, outcome))
    ensures Inv(Finish(s, written, outcome))
  {
    hide DocOk, ValidateDocument, DocJs, InOrder, Replaces;
    var r := Finish(s, written, outcome);
    var q := s.running.value.request;
    assert Line(s) == s.done + ([q] + s.waiting);
    InOrderTail(s.done, q, s.waiting);
    assert [] + s.waiting == s.waiting;
    if r.results[q.id].Some? {
      assert Line(r) == (s.done + [q]) + s.waiting && (s.done + [q]) + s.waiting == Line(s);
      assert q in Line(s);
      SucceededKeeps(s, r, q);
    } else {
      assert Line(r) == s.done + s.waiting;
      RefusedKeeps(s, r, q);
    }
  }

  lemma SucceededKeeps(s: Store, r: Store, q: Request)
    requires Inv(s) && Line(r) == Line(s) && q in Line(s)
    requires r.results.Keys == s.results.Keys + {q.id} && r.results[q.id].Some?
    requires forall id | id in s.results :: id == q.id || r.results[id] == s.results[id]
    requires r == s.(running := None, file := r.file, results := r.results, done := s.done + [q])
    requires forall x | x in s.waiting :: x.id > q.id
    ensures Inv(r)
  {
    hide Line;
    SuccessTold(s.done, s.results, q, r.results);
    hide InOrder, DocOk, Has, Told;
    assert Accounted(r) by {
      hide Ordered, Unsettled;
      AllAccounted(s, r);
    }
    hide Accounted;
  }

  lemma SuccessTold(done: seq<Request>, before: map<nat, Option<Doc>>, q: Request, results: map<nat, Option<Doc>>)
    requires Told(done, before) && results.Keys == before.Keys + {q.id} && results[q.id].Some?
    requires forall id | id in before :: id == q.id || results[id] == before[id]
    ensures Told(done + [q], results)
  {
    hide Has;
    forall id | id in results && results[id].Some? ensures Has(done + [q], id) {
      HasMore(done, q, id);
    }
  }

  lemma HasMore(done: seq<Request>, q: Request, id: nat)
    ensures Has(done + [q], id) <==> Has(done, id) || q.id == id
  {
    if Has(done, id) {
      var x :| x in done && x.id == id;
      assert x in done + [q];
    }
    assert q in done + [q];
  }

  // ----- the stored document -----

  /** The stored document is what the successful writes have made of the first one, and the write
      under way has started from it. */
  predicate Folds(first: Doc, s: Store) {
    && ReadFile(s.file) == ApplyAll(first, s.done)
    && (s.running.Some? ==> Applied(ReadFile(s.file), s.running.value.request) == Some(s.running.value.next))
  }

  lemma {:induction false} ApplyNext(doc: Doc, requests: seq<Request>, r: Request)
    ensures ApplyAll(doc, requests + [r]) ==
      var before := ApplyAll(doc, requests); if Applied(before, r).Some? then Applied(before, r).value else before
  {
    assert (requests + [r])[..|requests|] == requests;
  }

  /** A write that succeeds returns exactly what the next read returns, also when its own read
      had failed. */
  lemma ReturnedIsRead(s: Store, written: bool, outcome: nat -> Rename)
    requires Inv(s) && Enabled(s, OnFinish(written, outcome))
    ensures var r, id := Finish(s, written, outcome), s.running.value.request.id;
            id in r.results && (r.results[id].Some? ==> r.results[id] == Some(ReadFile(r.file)) && ReadFile(r.file) == s.running.value.next)
  {
    hide DocOk, ValidateDocument, DocJs, Replaces;
    DocumentBack(s.running.value.next);
  }

  /** A write that fails leaves the stored document as it was, and the chain free. */
  lemma FailureChangesNothing(s: Store, e: Event, id: nat)
    requires Inv(s) && Enabled(s, e) && id !in s.results
    requires id in Step(s, e).results && Step(s, e).results[id].None?
    ensures Step(s, e).file == s.file && Step(s, e).done == s.done && Step(s, e).running.None?
  {
    hide ValidateDocument, DocJs, Replaces, Applied, DocOk;
  }

  /** The first attempt, and three more, each only after a refusal with EPERM. */
  predicate InFourAttempts(outcome: nat -> Rename) {
    || outcome(0) == Renamed
    || (outcome(0) == Eperm && outcome(1) == Renamed)
    || (outcome(0) == Eperm && outcome(1) == Eperm && outcome(2) == Renamed)
    || (outcome(0) == Eperm && outcome(1) == Eperm && outcome(2) == Eperm && outcome(3) == Renamed)
  }

  lemma AttemptsAreFour(outcome: nat -> Rename)
    ensures Replaces(outcome) <==> InFourAttempts(outcome)
  {
    if InFourAttempts(outcome) {
      var k := if outcome(0) == Renamed then 0 else if outcome(1) == Renamed then 1 else if outcome(2) == Renamed then 2 else 3;
      assert outcome(k).Renamed? && forall j: nat | j < k :: outcome(j).Eperm?;
    }
    if Replaces(outcome) {
      var k: nat :| k < MAX_ATTEMPTS && outcome(k).Renamed? && forall j: nat | j < k :: outcome(j).Eperm?;
      assert k == 0 || k == 1 || k == 2 || k == 3;
    }
  }

  lemma TurnBegins(s: Store, readable: bool)
    requires Inv(s) && Enabled(s, OnBegin(readable))
    ensures var r, b := s.waiting[0], Step(s, OnBegin(readable));
            var next := Applied(if readable then ReadFile(s.file) else DEFAULTS, r);
            && r.id !in s.results && b.file == s.file
            && if next.None? then b.running.None? && r.id in b.results && b.results[r.id].None?
               else b.running == Some(Job(r, next.value)) && b.results == s.results && ValidateDocument(DocJs(next.value)) == next
  {
    SecondValidation(readable, s.file, s.waiting[0]);
    assert s.waiting[0] in s.waiting;
    hide Applied, ReadFile, ValidateDocument, DocJs, DocOk, Ordered, Told, Accounted;
  }

  lemma TurnEnds(b: Store, written: bool, outcome: nat -> Rename)
    requires b.running.Some? && ValidateDocument(DocJs(b.running.value.next)) == Some(b.running.value.next)
    ensures var t, job, good := Step(b, OnFinish(written, outcome)), b.running.value, written && InFourAttempts(outcome);
            && t.running.None? && job.request.id in t.results && t.results[job.request.id] == (if good then Some(job.next) else None)
            && t.file == if good then Json(DocJs(job.next)) else b.file
  {
    AttemptsAreFour(outcome);
    hide Replaces, InFourAttempts, ValidateDocument, DocJs;
  }

  /** The caller whose turn it is is told of success if and only if the key and the value are accepted,
      the temporary file is written, and it is put in place in four attempts; then the file is the
      document that was made, and otherwise what it was. */
  lemma WriteSucceedsIff(s: Store, readable: bool, written: bool, outcome: nat -> Rename)
    requires Inv(s) && Enabled(s, OnBegin(readable))
    ensures var r, b := s.waiting[0], Step(s, OnBegin(readable));
            var next := Applied(if readable then ReadFile(s.file) else DEFAULTS, r);
            if next.None? then b.running.None? && r.id in b.results && b.results[r.id].None? && b.file == s.file
            else
              && r.id !in b.results && Enabled(b, OnFinish(written, outcome))
              && var t := Step(b, OnFinish(written, outcome));
                 && t.running.None? && r.id in t.results
                 && (t.results[r.id] == if written && InFourAttempts(outcome) then next else None)
                 && (t.file == if written && InFourAttempts(outcome) then Json(DocJs(next.value)) else s.file)
  {
    var r, b := s.waiting[0], Step(s, OnBegin(readable));
    TurnBegins(s, readable);
    var next := Applied(if readable then ReadFile(s.file) else DEFAULTS, r);
    if next.Some? {
      TurnEnds(b, written, outcome);
    }
    hide Inv, Applied, ReadFile, InFourAttempts, ValidateDocument, DocJs, Step;
  }

  /** A write that settles: a success returns what is read next, a failure changes nothing. */
  lemma AfterFinish(s: Store, written: bool, outcome: nat -> Rename)
    requires Inv(s) && Enabled(s, OnFinish(written, outcome))
    ensures var r, id := Finish(s, written, outcome), s.running.value.request.id;
            && Inv(r) && id in r.results
            && if r.results[id].Some? then r.results[id].value == ReadFile(r.file) else r.file == s.file
  {
    FinishKeeps(s, written, outcome);
    ReturnedIsRead(s, written, outcome);
    hide Inv, DocOk, ValidateDocument, DocJs, Replaces, ReadFile;
  }

  lemma StepFolds(first: Doc, s: Store, e: Event)
    requires Inv(s) && Folds(first, s) && Enabled(s, e) && (e.OnBegin? ==> e.readable)
    ensures Folds(first, Step(s, e))
  {
    hide DocOk, ValidateDocument, DocJs, Replaces, Applied, ReadFile;
    match e
    case OnWrite(_, _) =>
    case OnBegin(readable) => SecondValidation(readable, s.file, s.waiting[0]);
    case OnFinish(written, outcome) =>
      ReturnedIsRead(s, written, outcome);
      ApplyNext(first, s.done, s.running.value.request);
  }

  lemma StepKeeps(s: Store, e: Event)
    requires Inv(s) && Enabled(s, e)
    ensures Inv(Step(s, e))
  {
    hide Inv;
    match e
    case OnWrite(key, value) => WriteKeeps(s, key, value);
    case OnBegin(readable) => BeginKeeps(s, readable);
    case OnFinish(written, outcome) => FinishKeeps(s, written, outcome);
  }

  predicate AllReadable(events: seq<Event>) {
    forall i | 0 <= i < |events| && events[i].OnBegin? :: events[i].readable
  }

  lemma {:induction false} RunFolds(first: Doc, s: Store, events: seq<Event>)
    requires Inv(s) && CanRun(s, events)
    ensures Inv(Run(s, events))
    ensures Folds(first, s) && AllReadable(events) ==> Folds(first, Run(s, events))
    decreases |events|
  {
    hide Inv, Folds, Step;
    if events != [] {
      StepKeeps(s, events[0]);
      if Folds(first, s) && AllReadable(events) {
        assert forall i | 0 <= i < |events[1..]| :: events[1..][i] == events[i + 1];
        StepFolds(first, s, events[0]);
      }
      RunFolds(first, Step(s, events[0]), events[1..]);
    }
  }

  /** For every interleaving of calls and of the chain's steps, as long as the file can be read:
      the stored document is the first one with all successful writes applied in the order of
      their calls; and these are exactly the writes whose callers were told of success. */
  lemma NoLostUpdate(file: File, events: seq<Event>)
    requires CanRun(Start(file), events) && AllReadable(events)
    ensures var s := Run(Start(file), events);
            && ReadFile(s.file) == ApplyAll(ReadFile(file), s.done) && InOrder(s.done)
            && (forall r | r in s.done :: r.id in s.results && s.results[r.id].Some?)
            && (forall id | id in s.results && s.results[id].Some? :: Has(s.done, id))
  {
    hide ReadFile, Applied, Inv, Run, CanRun, InOrder, Has, ApplyAll;
    StartOk(file);
    RunFolds(ReadFile(file), Start(file), events);
    DoneInOrder(Run(Start(file), events));
  }

  lemma StartOk(file: File)
    ensures Inv(Start(file)) && Folds(ReadFile(file), Start(file))
  {
    hide ReadFile;
    assert Line(Start(file)) == [];
  }

  lemma DoneInOrder(s: Store)
    requires Inv(s)
    ensures InOrder(s.done)
    ensures forall r | r in s.done :: r.id in s.results && s.results[r.id].Some?
    ensures forall id | id in s.results && s.results[id].Some? :: Has(s.done, id)
  {
    hide Has, Unsettled, Accounted;
    assert forall i | 0 <= i < |s.done| :: s.done[i] == Line(s)[i];
  }

  /** A preference that is not written keeps its value. */
  lemma OthersKept(current: Doc, r: Request, key: Key)
    requires DocOk(current) && Applied(current, r).Some? && r.key.Some? && key != r.key.value
    ensures Get(Applied(current, r).value, key) == Get(current, key)
  {
    hide Normalize, Put, Get;
    var p := Normalize(r.key.value, r.value, current.windowBounds);
    assert PrefOk(Get(current, WindowBounds)) && Get(current, WindowBounds) == BoundsPref(current.windowBounds) by {
      CurrentBounds(current);
    }
    NormalizeOk(r.key.value, r.value, current.windowBounds);
    PutGet(current, p.value, key);
  }

  lemma CurrentBounds(d: Doc)
    requires DocOk(d)
    ensures Get(d, WindowBounds) == BoundsPref(d.windowBounds) && PrefOk(Get(d, WindowBounds))
  {
  }

  // ----- a read that fails -----

  /** Only the bounds of the window depend on the document that was read. */
  lemma SameNormalized(key: Key, v: Js, a: Bounds, b: Bounds)
    requires !key.WindowBounds?
    ensures Normalize(key, v, a) == Normalize(key, v, b)
  {
  }

  /** The bounds a write does not give stand at their defaults. */
  predicate OtherBoundsDefault(given: map<Name, Js>, stored: Bounds) {
    var default := DEFAULTS.windowBounds;
    && (Field(given, X).Undefined? ==> stored.x == default.x)
    && (Field(given, Y).Undefined? ==> stored.y == default.y)
    && (Field(given, Width).Undefined? ==> stored.width == default.width)
    && (Field(given, Height).Undefined? ==> stored.height == default.height)
    && (Field(given, Maximized).Undefined? ==> stored.maximized == default.maximized)
  }

  /** Whatever the write does not give stands at its default. */
  predicate RestDefault(stored: Doc, r: Request) {
    && (forall key: Key | r.key != Some(key) :: Get(stored, key) == Get(DEFAULTS, key))
    && (r.key == Some(WindowBounds) && r.value.Object? ==> OtherBoundsDefault(r.value.fields, stored.windowBounds))
  }

  lemma BoundsMerged(v: Js, stored: Bounds)
    requires ValidateBounds(v, stored).Some?
    ensures ValidateBounds(v, DEFAULTS.windowBounds).Some?
    ensures ValidateBounds(v, DEFAULTS.windowBounds) == ValidateBounds(v, stored) <==> OtherBoundsDefault(v.fields, stored)
  {
  }

  lemma NormalizedAlike(key: Key, v: Js, stored: Bounds)
    requires Normalize(key, v, stored).Some?
    ensures Normalize(key, v, DEFAULTS.windowBounds).Some?
    ensures Normalize(key, v, DEFAULTS.windowBounds) == Normalize(key, v, stored)
       <==> (key.WindowBounds? && v.Object? ==> OtherBoundsDefault(v.fields, stored))
  {
    if key.WindowBounds? {
      BoundsMerged(v, stored);
    } else {
      SameNormalized(key, v, stored, DEFAULTS.windowBounds);
    }
  }

  lemma PutsDiffer(a: Doc, b: Doc, p: Pref, q: Pref)
    requires KeyOf(p) == KeyOf(q)
    ensures Put(a, p) == Put(b, q) <==> p == q && forall key: Key | key != KeyOf(p) :: Get(a, key) == Get(b, key)
  {
    hide Put, Get;
    forall key: Key ensures Get(Put(a, p), key) == if key == KeyOf(p) then p else Get(a, key)
                    ensures Get(Put(b, q), key) == if key == KeyOf(p) then q else Get(b, key) {
      PutGet(a, p, key);
      PutGet(b, q, key);
    }
    if p == q && forall key: Key | key != KeyOf(p) :: Get(a, key) == Get(b, key) {
      SameDoc(Put(a, p), Put(b, q));
    }
    if Put(a, p) == Put(b, q) {
      assert Get(Put(a, p), KeyOf(p)) == p;
      forall key: Key | key != KeyOf(p) ensures Get(a, key) == Get(b, key) {
        assert Get(Put(a, p), key) == Get(a, key);
      }
    }
  }

  /** A write whose own read fails loses nothing exactly when whatever it does not give stands at
      its default: it starts from the defaults, not from the stored document. */
  lemma UnreadableLosesUnlessDefault(stored: Doc, r: Request)
    requires DocOk(stored) && Applied(stored, r).Some?
    ensures Applied(DEFAULTS, r).Some?
    ensures Applied(DEFAULTS, r) == Applied(stored, r) <==> RestDefault(stored, r)
  {
    hide Normalize, Put, Get, OtherBoundsDefault, DocOk;
    DefaultBounds();
    CurrentBounds(stored);
    var key := r.key.value;
    NormalizedAlike(key, r.value, stored.windowBounds);
    NormalizeOk(key, r.value, DEFAULTS.windowBounds);
    NormalizeOk(key, r.value, stored.windowBounds);
    var p, q := Normalize(key, r.value, DEFAULTS.windowBounds).value, Normalize(key, r.value, stored.windowBounds).value;
    PutsDiffer(DEFAULTS, stored, p, q);
    assert key.WindowBounds? ==> r.value.Object? by {
      if key.WindowBounds? { BoundsAreObject(r.value, stored.windowBounds); }
    }
  }

  lemma BoundsAreObject(v: Js, current: Bounds)
    requires Normalize(WindowBounds, v, current).Some?
    ensures v.Object?
  {
  }

  lemma DefaultBounds()
    ensures BoundsOk(DEFAULTS.windowBounds)
  {
  }

  // ----- runs in which reads may fail -----

  /** The stored document, at every moment, is the first one with the successful writes applied. */
  predicate NeverLost(first: Doc, s: Store, events: seq<Event>)
    requires CanRun(s, events)
    decreases |events|
  {
    ReadFile(s.file) == ApplyAll(first, s.done) && (events == [] || NeverLost(first, Step(s, events[0]), events[1..]))
  }

  /** This step makes a write successful. */
  predicate Succeeds(s: Store, e: Event)
    requires Enabled(s, e)
  {
    |Step(s, e).done| > |s.done|
  }

  /** Of every write that succeeds though its own read has failed, the rest of the document stood
      at its defaults. `blind`: the read of the write under way has failed. */
  predicate BlindWritesHarmless(s: Store, blind: bool, events: seq<Event>)
    requires CanRun(s, events)
    decreases |events|
  {
    events == [] ||
    (var e := events[0];
     && (blind && e.OnFinish? && Succeeds(s, e) ==> RestDefault(ReadFile(s.file), s.running.value.request))
     && BlindWritesHarmless(Step(s, e), if e.OnBegin? then !e.readable else blind, events[1..]))
  }

  /** The write under way started from the stored document, or from the defaults. */
  predicate StartedFrom(s: Store, blind: bool) {
    s.running.Some? ==>
      Applied(if blind then DEFAULTS else ReadFile(s.file), s.running.value.request) == Some(s.running.value.next)
  }

  lemma StepStarted(s: Store, blind: bool, e: Event)
    requires Inv(s) && StartedFrom(s, blind) && Enabled(s, e)
    ensures StartedFrom(Step(s, e), if e.OnBegin? then !e.readable else blind)
  {
    hide DocOk, ValidateDocument, DocJs, Replaces, Applied, ReadFile;
    match e
    case OnWrite(_, _) =>
    case OnBegin(readable) => SecondValidation(readable, s.file, s.waiting[0]);
    case OnFinish(_, _) =>
  }

  /** The next step loses nothing if and only if it is harmless. */
  lemma StepLoses(first: Doc, s: Store, blind: bool, e: Event)
    requires Inv(s) && StartedFrom(s, blind) && Enabled(s, e) && ReadFile(s.file) == ApplyAll(first, s.done)
    ensures var t := Step(s, e);
            ReadFile(t.file) == ApplyAll(first, t.done) <==>
              (blind && e.OnFinish? && Succeeds(s, e) ==> RestDefault(ReadFile(s.file), s.running.value.request))
  {
    hide DocOk, ValidateDocument, DocJs, Replaces, Applied, ReadFile, RestDefault;
    if e.OnFinish? && Succeeds(s, e) {
      var q := s.running.value.request;
      ReturnedIsRead(s, e.written, e.outcome);
      ApplyNext(first, s.done, q);
      ReadIsOk(s.file);
      DefaultsOk();
      AppliedAlike(ReadFile(s.file), q);
      UnreadableLosesUnlessDefault(ReadFile(s.file), q);
    }
  }

  /** Whether a write is refused does not depend on what it has read. */
  lemma AppliedAlike(stored: Doc, r: Request)
    requires DocOk(stored)
    ensures Applied(DEFAULTS, r).Some? <==> Applied(stored, r).Some?
  {
    if r.key.Some? && Normalize(r.key.value, r.value, DEFAULTS.windowBounds).Some? {
      NormalizedSome(r.key.value, r.value, stored.windowBounds);
      hide Normalize;
    } else if Applied(stored, r).Some? {
      UnreadableLosesUnlessDefault(stored, r);
    }
  }

  lemma NormalizedSome(key: Key, v: Js, current: Bounds)
    ensures Normalize(key, v, DEFAULTS.windowBounds).Some? ==> Normalize(key, v, current).Some?
  {
  }

  /** For every interleaving, with reads that fail at any moment: no update is ever lost if and
      only if every write that succeeds though its read has failed finds the rest at its defaults. */
  lemma NeverLostIff(file: File, events: seq<Event>)
    requires CanRun(Start(file), events)
    ensures NeverLost(ReadFile(file), Start(file), events) <==> BlindWritesHarmless(Start(file), false, events)
  {
    hide ReadFile, Applied, NeverLost, BlindWritesHarmless, CanRun, Inv;
    StartOk(file);
    LostFrom(ReadFile(file), Start(file), false, events);
  }

  lemma {:induction false} LostFrom(first: Doc, s: Store, blind: bool, events: seq<Event>)
    requires Inv(s) && StartedFrom(s, blind) && CanRun(s, events) && ReadFile(s.file) == ApplyAll(first, s.done)
    ensures NeverLost(first, s, events) <==> BlindWritesHarmless(s, blind, events)
    decreases |events|
  {
    hide Inv, StartedFrom, Step, ReadFile, RestDefault, Succeeds;
    if events != [] {
      var e := events[0];
      StepKeeps(s, e);
      StepStarted(s, blind, e);
      StepLoses(first, s, blind, e);
      var t := Step(s, e);
      if ReadFile(t.file) == ApplyAll(first, t.done) {
        LostFrom(first, t, if e.OnBegin? then !e.readable else blind, events[1..]);
      }
    }
  }

  function AtOnce(attempt: nat): Rename {
    Renamed
  }

  /** One write that goes through, from a document that is already normalized. */
  lemma OneWrite(s: Store, key: Key, value: Js, p: Pref, readable: bool)
    requires s.running.None? && s.waiting == [] && Normalize(key, value, DEFAULTS.windowBounds) == Some(p) && !key.WindowBounds?
    ensures var events := [OnWrite(Some(key), value), OnBegin(readable), OnFinish(true, AtOnce)];
            && CanRun(s, events)
            && var r := Run(s, events);
               && r.running.None? && r.waiting == [] && |r.done| == |s.done| + 1
               && ReadFile(r.file) == Put(if readable then ReadFile(s.file) else DEFAULTS, p)
  {
    hide ValidateDocument, DocJs, Normalize, Put, ReadFile;
    var events := [OnWrite(Some(key), value), OnBegin(readable), OnFinish(true, AtOnce)];
    var s1 := Write(s, Some(key), value);
    var current := if readable then ReadFile(s.file) else DEFAULTS;
    SameNormalized(key, value, current.windowBounds, DEFAULTS.windowBounds);
    SecondValidation(readable, s.file, s1.waiting[0]);
    var s2 := Begin(s1, readable);
    assert s2.running == Some(Job(s1.waiting[0], Put(current, p)));
    RenamedAtOnce(AtOnce);
    var s3 := Finish(s2, true, AtOnce);
    Stored(s2, AtOnce);
    var begin, finish := OnBegin(readable), OnFinish(true, AtOnce);
    RunNext(s2, finish, []);
    RunNext(s1, begin, [finish]);
    RunNext(s, OnWrite(Some(key), value), [begin, finish]);
    assert events == [OnWrite(Some(key), value)] + ([begin] + ([finish] + []));
  }

  lemma RunNext(s: Store, e: Event, rest: seq<Event>)
    requires Enabled(s, e) && CanRun(Step(s, e), rest)
    ensures CanRun(s, [e] + rest) && Run(s, [e] + rest) == Run(Step(s, e), rest)
  {
    hide Enabled, Step;
    assert ([e] + rest)[1..] == rest;
  }

  lemma RenamedAtOnce(outcome: nat -> Rename)
    requires outcome(0).Renamed?
    ensures Replaces(outcome)
  {
    assert 0 < MAX_ATTEMPTS;
  }

  lemma Stored(s: Store, outcome: nat -> Rename)
    requires s.running.Some? && DocOk(s.running.value.next) && Replaces(outcome)
    ensures var r := Finish(s, true, outcome);
            ReadFile(r.file) == s.running.value.next && |r.done| == |s.done| + 1 && r.running.None? && r.waiting == s.waiting
  {
    hide ValidateDocument, DocJs, DocOk;
    DocumentBack(s.running.value.next);
  }

  /** A concrete loss: the theme is changed; then, while the language is changed, the file cannot
      be read once. Both writes succeed, and the theme is gone. */
  lemma ThemeIsLost()
    ensures var first := [OnWrite(Some(Theme), Text("dark")), OnBegin(true), OnFinish(true, AtOnce)];
            var second := [OnWrite(Some(Language), Text("en")), OnBegin(false), OnFinish(true, AtOnce)];
            && CanRun(Start(Missing), first) && ReadFile(Run(Start(Missing), first).file).theme == Dark
            && CanRun(Run(Start(Missing), first), second)
            && var s := Run(Run(Start(Missing), first), second);
               |s.done| == 2 && ReadFile(s.file).theme == System && ReadFile(s.file).language == English
  {
    hide Run, CanRun, DocOk, ValidateDocument;
    OneWrite(Start(Missing), Theme, Text("dark"), ThemePref(Dark), true);
    var first := [OnWrite(Some(Theme), Text("dark")), OnBegin(true), OnFinish(true, AtOnce)];
    var s1 := Run(Start(Missing), first);
    assert CanRun(Start(Missing), first) && ReadFile(s1.file).theme == Dark;
    OneWrite(s1, Language, Text("en"), LanguagePref(English), false);
    var second := [OnWrite(Some(Language), Text("en")), OnBegin(false), OnFinish(true, AtOnce)];
    assert CanRun(s1, second) && |Run(s1, second).done| == 2;
    assert ReadFile(Run(s1, second).file) == Put(DEFAULTS, LanguagePref(English));
  }
}
