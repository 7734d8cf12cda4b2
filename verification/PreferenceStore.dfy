/** The code of DesktopPreferencesStore: the chain and the file, updated in place. Each method is
    proved to be the step of PreferenceModel and to keep the invariant of its runs. */
module PreferenceStore {
  import opened Wrappers
  import opened PreferenceValues
  import opened PreferenceRoundTrip
  import opened PreferenceModel
  import PreferenceSafety

  class DesktopPreferencesStore {
    var file: File
    var calls: nat
    var waiting: seq<Request>
    var running: Option<Job>
    var results: map<nat, Option<Doc>>
    ghost var done: seq<Request>

    ghost function Abs(): Store
      reads this
    {
      Store(file, calls, waiting, running, results, done)
    }

    /** The invariant of all runs: calls in order, each with one result, and a normalized document
        under way. */
    ghost predicate Valid()
      reads this
    {
      PreferenceSafety.Inv(Abs())
    }

    constructor (file: File)
      ensures Valid() && Abs() == Start(file)
    {
      this.file, calls, waiting, running, results, done := file, 0, [], None, map[], [];
    }

    method ReadStored(readable: bool) returns (doc: Doc)
      ensures doc == if readable then ReadFile(file) else DEFAULTS
    {
      if !readable || !file.Json? {
        return DEFAULTS;
      }
      var document := ValidateDocument(file.v);
      if document.None? {
        return DEFAULTS;
      }
      doc := document.value;
    }

    /** The call is chained behind the ones before it. */
    method WritePreference(key: Option<Key>, value: Js)
      requires Valid()
      modifies this
      ensures Valid()
      ensures Abs() == Write(old(Abs()), key, value)
    {
      PreferenceSafety.WriteKeeps(Abs(), key, value);
      hide PreferenceSafety.Inv;
      waiting := waiting + [Request(calls, key, value)];
      calls := calls + 1;
    }

    /** The body of writeNext, up to the validation in writeDocument. */
    method TakeNext(readable: bool)
      requires running.None? && waiting != []
      modifies this
      ensures Abs() == Begin(old(Abs()), readable)
    {
      hide ValidateDocument, Normalize, DocJs, Put;
      var request := waiting[0];
      waiting := waiting[1..];
      if request.key.None? {
        results := results[request.id := None];
        return;
      }
      var current := ReadStored(readable);
      var normalized := Normalize(request.key.value, request.value, current.windowBounds);
      if normalized.None? {
        results := results[request.id := None];
        return;
      }
      var next := Put(current, normalized.value);
      if ValidateDocument(DocJs(next)).None? {
        results := results[request.id := None];
        return;
      }
      running := Some(Job(request, next));
    }

    method WriteNext(readable: bool)
      requires Valid() && Enabled(Abs(), OnBegin(readable))
      modifies this
      ensures Valid() && file == old(file)
      ensures Abs() == Begin(old(Abs()), readable)
    {
      PreferenceSafety.BeginKeeps(Abs(), readable);
      assert Begin(Abs(), readable).file == file;
      hide PreferenceSafety.Inv, Begin;
      TakeNext(readable);
    }

    /** The body of writeDocument after the validation: the temporary file, and the replacement. */
    method StoreDocument(written: bool, outcome: nat -> Rename)
      requires running.Some?
      modifies this
      ensures Abs() == Finish(old(Abs()), written, outcome)
    {
      hide ValidateDocument, DocJs, Replaces;
      var job := running.value;
      running := None;
      var validated := ValidateDocument(DocJs(job.next));
      if validated.None? || !written {
        results := results[job.request.id := None];
        return;
      }
      var replaced, _ := ReplaceDocument(outcome);
      if !replaced {
        results := results[job.request.id := None];
        return;
      }
      file := Json(DocJs(validated.value));
      results := results[job.request.id := Some(job.next)];
      done := done + [job.request];
    }

    /** A success returns what the next read returns; a failure leaves the file as it was. */
    method WriteDocument(written: bool, outcome: nat -> Rename)
      requires Valid() && running.Some?
      modifies this
      ensures Valid() && old(running).value.request.id in results
      ensures var result := results[old(running).value.request.id];
              if result.Some? then result.value == ReadFile(file) else file == old(file)
      ensures Abs() == Finish(old(Abs()), written, outcome)
    {
      PreferenceSafety.AfterFinish(Abs(), written, outcome);
      hide PreferenceSafety.Inv, Finish, ReadFile;
      StoreDocument(written, outcome);
    }
  }
}
