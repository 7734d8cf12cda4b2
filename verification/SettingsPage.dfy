/** The code of saveSettings and retrySettingsSave in App.tsx: refs updated in place by the
    call, by the answer and by the retry loop. Each is proved to be the step of SettingsModel and
    to keep the invariant of its runs; no entry it leaves is older than its field's newest value. */
module SettingsPage {
  import opened Wrappers
  import opened SettingsModel
  import SettingsSafety

  class SettingsSaver {
    var settingsWriteRevisions: map<Field, nat>
    var settingsFailedWrites: map<Field, Failed>
    var settingsRequestRevision: nat
    var settingsSaveCount: nat
    var settingsSaving: bool
    var mounted: bool
    var shown: nat
    var waiting: seq<Ticket>
    var sent: Option<Ticket>
    var retries: seq<(Field, Failed)>
    ghost var inbox: seq<Ticket>
    ghost var answers: map<nat, bool>
    ghost var stored: map<Field, Value>
    ghost var newest: map<Field, Value>
    ghost var dropped: set<Field>

    ghost function Abs(): Saves
      reads this
    {
      Saves(settingsWriteRevisions, settingsFailedWrites, settingsRequestRevision, settingsSaveCount, settingsSaving,
            mounted, shown, waiting, sent, retries, inbox, answers, stored, newest, dropped)
    }

    /** The invariant of all runs: tickets, revisions, entries, the bridge and newest values agree. */
    ghost predicate Valid()
      reads this
    {
      SettingsSafety.Inv(Abs())
    }

    constructor ()
      ensures Valid() && Abs() == START
    {
      settingsWriteRevisions, settingsFailedWrites, settingsRequestRevision := map[], map[], 0;
      settingsSaveCount, settingsSaving, mounted, shown := 0, false, true, 0;
      waiting, sent, retries := [], None, [];
      inbox, answers, stored, newest, dropped := [], map[], map[], map[], {};
    }

    /** The loop over the identities: a new revision each, and no failed entry any more. */
    method Claim(identities: set<Field>) returns (revisions: map<Field, nat>)
      modifies this`settingsWriteRevisions, this`settingsFailedWrites
      ensures revisions == Bumped(old(settingsWriteRevisions), identities)
      ensures settingsWriteRevisions == old(settingsWriteRevisions) + revisions
      ensures settingsFailedWrites == old(settingsFailedWrites) - identities
    {
      revisions := map[];
      var rest := identities;
      while rest != {}
        invariant rest <= identities
        invariant revisions == Bumped(old(settingsWriteRevisions), identities - rest)
        invariant settingsWriteRevisions == old(settingsWriteRevisions) + revisions
        invariant settingsFailedWrites == old(settingsFailedWrites) - (identities - rest)
        decreases rest
      {
        var identity :| identity in rest;
        var revision := Revision(settingsWriteRevisions, identity) + 1;
        settingsWriteRevisions := settingsWriteRevisions[identity := revision];
        settingsFailedWrites := settingsFailedWrites - {identity};
        revisions := revisions[identity := revision];
        rest := rest - {identity};
      }
      assert identities - rest == identities;
    }

    /** The save takes its number and its place in the chain. */
    method Enqueue(request: Request, revisions: map<Field, nat>)
      requires revisions.Keys <= request.Keys
      modifies this`settingsRequestRevision, this`settingsSaveCount, this`settingsSaving, this`waiting, this`newest, this`dropped
      ensures settingsRequestRevision == old(settingsRequestRevision) + 1 && settingsSaveCount == old(settingsSaveCount) + 1
      ensures settingsSaving && waiting == old(waiting) + [Ticket(request, revisions, settingsRequestRevision)]
      ensures newest == old(newest) + (map f | f in revisions :: request[f]) && dropped == old(dropped) - revisions.Keys
    {
      settingsRequestRevision := settingsRequestRevision + 1;
      settingsSaveCount := settingsSaveCount + 1;
      settingsSaving := true;
      waiting := waiting + [Ticket(request, revisions, settingsRequestRevision)];
      newest := newest + map f | f in revisions :: request[f];
      dropped := dropped - revisions.Keys;
    }

    /** The synchronous part: revisions, number and place in the chain. */
    method BeginSave(request: Request)
      modifies this
      ensures Abs() == Save(old(Abs()), request)
    {
      var identities := Identities(request);
      assert identities <= request.Keys;
      hide Identities, Revision;
      var revisions := Claim(identities);
      SameValues(request, identities, revisions);
      hide Bumped;
      Enqueue(request, revisions);
    }

    method SaveSettings(request: Request)
      requires Valid() && Enabled(Abs(), OnSave(request))
      modifies this
      ensures Valid() && SettingsSafety.FailedOk(Abs())
      ensures Abs() == Save(old(Abs()), request)
    {
      SettingsSafety.AfterSave(Abs(), request);
      hide SettingsSafety.Inv, SettingsSafety.FailedOk, Save, IsAutoSave, IsTracked;
      BeginSave(request);
    }

    /** The first part of the chained function, once the save before it has settled. */
    method SendNext()
      requires Valid() && Enabled(Abs(), OnSend)
      modifies this
      ensures Valid() && SettingsSafety.FailedOk(Abs())
      ensures Abs() == Send(old(Abs()))
    {
      SettingsSafety.AfterSend(Abs());
      hide SettingsSafety.Inv, SettingsSafety.FailedOk;
      inbox := inbox + [waiting[0]];
      sent, waiting := Some(waiting[0]), waiting[1..];
    }

    /** The loop after a success: entries this save has made good. */
    method Forget(t: Ticket)
      modifies this`settingsFailedWrites
      ensures settingsFailedWrites == old(settingsFailedWrites) - Current(old(Abs()), t)
    {
      var rest, good := t.revisions.Keys, {};
      while rest != {}
        invariant rest <= t.revisions.Keys
        invariant good == set f | f in t.revisions.Keys - rest && f in settingsWriteRevisions && settingsWriteRevisions[f] == t.revisions[f]
        invariant settingsFailedWrites == old(settingsFailedWrites) - good
        decreases rest
      {
        var identity :| identity in rest;
        if identity in settingsWriteRevisions && settingsWriteRevisions[identity] == t.revisions[identity] {
          settingsFailedWrites := settingsFailedWrites - {identity};
          good := good + {identity};
        }
        rest := rest - {identity};
      }
      assert good == Current(old(Abs()), t);
    }

    /** The loop after a failure: a patch for each field no later save has touched. */
    method Remember(t: Ticket)
      requires t.revisions.Keys <= t.request.Keys
      modifies this`settingsFailedWrites
      ensures settingsFailedWrites == old(settingsFailedWrites) + PatchesOf(settingsWriteRevisions, t, t.revisions.Keys)
    {
      ghost var before := settingsFailedWrites;
      ghost var done: set<Field> := {};
      var rest := t.revisions.Keys;
      assert before + PatchesOf(settingsWriteRevisions, t, {}) == before;
      while rest != {}
        invariant rest <= t.revisions.Keys && done == t.revisions.Keys - rest
        invariant settingsFailedWrites == before + PatchesOf(settingsWriteRevisions, t, done)
        decreases rest
      {
        var identity :| identity in rest;
        OnePatch(before, settingsWriteRevisions, t, done, identity);
        if identity in settingsWriteRevisions && settingsWriteRevisions[identity] == t.revisions[identity] {
          settingsFailedWrites := settingsFailedWrites[identity := Failed(map[identity := t.request[identity]], t.revisions[identity])];
        }
        done := done + {identity};
        rest := rest - {identity};
      }
      assert done == t.revisions.Keys;
    }

    /** The `finally` of the operation. */
    method Settle()
      modifies this`sent, this`settingsSaveCount, this`settingsSaving
      ensures Abs() == Settled(old(Abs()))
    {
      sent := None;
      settingsSaveCount := if settingsSaveCount > 0 then settingsSaveCount - 1 else 0;
      if mounted {
        settingsSaving := settingsSaveCount > 0;
      }
    }

    /** The configuration of the answer is shown if no later save was made. */
    method Show(t: Ticket)
      modifies this`shown
      ensures shown == if mounted && t.number == settingsRequestRevision then t.number else old(shown)
    {
      if mounted && t.number == settingsRequestRevision {
        shown := t.number;
      }
    }

    /** The body of the success. */
    method MakeGood()
      requires sent.Some?
      modifies this
      ensures Abs() == Succeed(old(Abs()))
    {
      hide Current, Settled;
      var t := sent.value;
      Forget(t);
      Show(t);
      Settle();
    }

    method Answered()
      requires Valid() && Enabled(Abs(), OnSuccess)
      modifies this
      ensures Valid() && SettingsSafety.FailedOk(Abs())
      ensures Abs() == Succeed(old(Abs()))
    {
      SettingsSafety.AfterSuccess(Abs());
      hide Succeed, SettingsSafety.Inv, SettingsSafety.FailedOk;
      MakeGood();
    }

    method Rejected()
      requires Valid() && Enabled(Abs(), OnFailure)
      modifies this
      ensures Valid() && SettingsSafety.FailedOk(Abs())
      ensures Abs() == Fail(old(Abs()))
    {
      SettingsSafety.AfterFailure(Abs());
      hide SettingsSafety.Inv, SettingsSafety.FailedOk;
      if mounted {
        Remember(sent.value);
      } else {
        dropped := dropped + Current(Abs(), sent.value);
      }
      Settle();
    }

    /** `Array.from` of the failed entries, in the order of the map. */
    method FailedEntries(order: seq<Field>) returns (entries: seq<(Field, Failed)>)
      ensures entries == Entries(settingsFailedWrites, order)
    {
      entries := [];
      for i := 0 to |order|
        invariant entries + Entries(settingsFailedWrites, order[i..]) == Entries(settingsFailedWrites, order)
      {
        assert order[i..][1..] == order[i + 1..];
        if order[i] in settingsFailedWrites {
          entries := entries + [(order[i], settingsFailedWrites[order[i]])];
        }
      }
      assert order[|order|..] == [] && entries + [] == entries;
    }

    method RetrySettingsSave(order: seq<Field>)
      requires Valid()
      modifies this`retries
      ensures Valid() && SettingsSafety.FailedOk(Abs())
      ensures Abs() == Retry(old(Abs()), order)
    {
      SettingsSafety.AfterRetry(Abs(), order);
      hide SettingsSafety.Inv, SettingsSafety.FailedOk, Entries;
      var entries := FailedEntries(order);
      retries := retries + entries;
    }

    method RetryRound(i: nat)
      requires Valid() && Enabled(Abs(), OnRetryNext(i))
      modifies this
      ensures Valid() && SettingsSafety.FailedOk(Abs())
      ensures Abs() == RetryNext(old(Abs()), i)
    {
      SettingsSafety.AfterRetryRound(Abs(), i);
      hide SettingsSafety.Inv, SettingsSafety.FailedOk;
      hide Save, IsAutoSave, IsTracked;
      var entry := retries[i];
      retries := retries[..i] + retries[i + 1..];
      if entry.0 in settingsFailedWrites && settingsFailedWrites[entry.0] == entry.1
         && Revision(settingsWriteRevisions, entry.0) == entry.1.revision {
        SaveSettings(entry.1.patch);
      }
    }
  }

  lemma SameValues(request: Request, fields: set<Field>, revisions: map<Field, nat>)
    requires revisions.Keys == fields && fields <= request.Keys
    ensures (map f | f in revisions :: request[f]) == (map f | f in fields :: request[f])
  {
  }

  /** The next field of a failed save. */
  lemma OnePatch(before: map<Field, Failed>, revisions: map<Field, nat>, t: Ticket, done: set<Field>, f: Field)
    requires done <= t.revisions.Keys && f in t.revisions && t.revisions.Keys <= t.request.Keys
    ensures before + PatchesOf(revisions, t, done + {f}) ==
      if f in revisions && revisions[f] == t.revisions[f]
      then (before + PatchesOf(revisions, t, done))[f := Failed(map[f := t.request[f]], t.revisions[f])]
      else before + PatchesOf(revisions, t, done)
  {
    if !(f in revisions && revisions[f] == t.revisions[f]) {
      assert PatchesOf(revisions, t, done + {f}) == PatchesOf(revisions, t, done);
    }
  }
}
