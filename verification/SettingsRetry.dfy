/** What a retry does: every field that has failed is saved again, with its newest value, and
    nothing else is. */
module SettingsRetry {
  import opened SettingsModel
  import opened SettingsSafety

  /** The rounds of a retry loop with `n` entries, one after the other; `k` entries of loops begun
      before are left waiting. */
  function Rounds(k: nat, n: nat): seq<Event> {
    if n == 0 then [] else [OnRetryNext(k)] + Rounds(k, n - 1)
  }

  predicate Distinct(order: seq<Field>) {
    forall i, j | 0 <= i < j < |order| :: order[i] != order[j]
  }

  /** The retry loop still has these fields before it, each with its own entry. */
  predicate Awaits(s: Saves, earlier: seq<(Field, Failed)>, order: seq<Field>) {
    && Distinct(order) && |s.retries| == |earlier| + |order| && s.retries[..|earlier|] == earlier
    && (forall i | 0 <= i < |order| :: order[i] in s.failed && s.retries[|earlier| + i] == (order[i], s.failed[order[i]]))
  }

  /** A save of `f` alone, with its newest value, at its newest revision. */
  predicate Resends(s: Saves, t: Ticket, f: Field) {
    && f in s.newest && f in s.revisions
    && t.request == map[f := s.newest[f]] && t.revisions == map[f := s.revisions[f]]
  }

  /** One save more for each field of `order`, in this order, and no other. */
  predicate NewSaves(s: Saves, t: Saves, order: seq<Field>) {
    && |t.waiting| == |s.waiting| + |order| && t.waiting[..|s.waiting|] == s.waiting
    && forall i | 0 <= i < |order| :: Resends(t, t.waiting[|s.waiting| + i], order[i])
  }

  /** From `s` to `t` exactly the fields of `order` were sent again, and their entries are gone. */
  predicate Resent(s: Saves, t: Saves, earlier: seq<(Field, Failed)>, order: seq<Field>) {
    && t.newest == s.newest && t.retries == earlier && NewSaves(s, t, order)
    && t.failed == s.failed - (set f | f in order)
    && (forall f | f in s.revisions && f !in order :: f in t.revisions && t.revisions[f] == s.revisions[f])
  }

  // ----- one round -----

  lemma EntryIsNewest(s: Saves, f: Field)
    requires Inv(s) && f in s.failed
    ensures f in s.newest && f in s.revisions && IsTracked(f)
    ensures s.failed[f] == Failed(map[f := s.newest[f]], s.revisions[f])
    ensures StillFailed(s, (f, s.failed[f]))
  {
    hide PendingOk, BridgeOk, FieldsOk, DroppedOk;
  }

  lemma SaveOne(s: Saves, f: Field, value: Value)
    requires IsTracked(f) && f in s.revisions && f in s.newest && s.newest[f] == value
    ensures var r := Save(s, map[f := value]);
            && r.waiting == s.waiting + [Ticket(map[f := value], map[f := s.revisions[f] + 1], s.number + 1)]
            && r.revisions == s.revisions[f := s.revisions[f] + 1] && r.failed == s.failed - {f}
            && r.newest == s.newest && r.retries == s.retries
  {
    var request := map[f := value];
    assert IsAutoSave(request);
    assert Identities(request) == {f};
    OneStamp(s.revisions, f);
    hide Identities, Bumped, IsTracked, IsAutoSave;
    assert (map x | x in {f} :: request[x]) == request;
    assert s.newest + request == s.newest;
  }

  lemma OneStamp(revisions: map<Field, nat>, f: Field)
    requires f in revisions
    ensures Bumped(revisions, {f}) == map[f := revisions[f] + 1]
    ensures revisions + Bumped(revisions, {f}) == revisions[f := revisions[f] + 1]
  {
  }

  lemma OneRound(s: Saves, earlier: seq<(Field, Failed)>, order: seq<Field>)
    requires Inv(s) && Awaits(s, earlier, order) && order != []
    ensures var f, u := order[0], RetryNext(s, |earlier|);
            && Inv(u) && Awaits(u, earlier, order[1..]) && u.newest == s.newest && u.failed == s.failed - {f}
            && |u.waiting| == |s.waiting| + 1 && u.waiting[..|s.waiting|] == s.waiting && Resends(u, u.waiting[|s.waiting|], f)
            && f in s.revisions && u.revisions == s.revisions[f := s.revisions[f] + 1]
  {
    hide Inv, Save, IsTracked, StillFailed, RetryNext;
    var f, k := order[0], |earlier|;
    var u := RetryNext(s, k);
    RetryKeeps(s, k);
    EntryIsNewest(s, f);
    assert s.retries[k] == (f, s.failed[f]);
    RoundSaves(s, k);
    SaveOne(s.(retries := s.retries[..k] + s.retries[k + 1..]), f, s.newest[f]);
    hide Resends;
    AwaitsNext(s, u, earlier, order);
    FirstResends(s, u, f);
  }

  lemma FirstResends(s: Saves, u: Saves, f: Field)
    requires f in s.newest && f in s.revisions && u.newest == s.newest && u.revisions == s.revisions[f := s.revisions[f] + 1]
    requires u.waiting == s.waiting + [Ticket(map[f := s.newest[f]], map[f := s.revisions[f] + 1], s.number + 1)]
    ensures Resends(u, u.waiting[|s.waiting|], f) && u.waiting[..|s.waiting|] == s.waiting
  {
  }

  lemma RoundSaves(s: Saves, k: nat)
    requires k < |s.retries| && StillFailed(s, s.retries[k])
    ensures RetryNext(s, k) == Save(s.(retries := s.retries[..k] + s.retries[k + 1..]), s.retries[k].1.patch)
  {
    hide Save, StillFailed;
  }

  lemma AwaitsNext(s: Saves, u: Saves, earlier: seq<(Field, Failed)>, order: seq<Field>)
    requires Awaits(s, earlier, order) && order != []
    requires u.retries == s.retries[..|earlier|] + s.retries[|earlier| + 1..] && u.failed == s.failed - {order[0]}
    ensures Awaits(u, earlier, order[1..])
  {
    forall i | 0 <= i < |order[1..]|
      ensures order[1..][i] in u.failed && u.retries[|earlier| + i] == (order[1..][i], u.failed[order[1..][i]])
    {
      assert order[1..][i] == order[i + 1] && order[i + 1] != order[0];
      assert u.retries[|earlier| + i] == s.retries[|earlier| + (i + 1)];
    }
  }

  lemma ResentNext(s: Saves, u: Saves, t: Saves, earlier: seq<(Field, Failed)>, order: seq<Field>)
    requires order != [] && Distinct(order) && Resent(u, t, earlier, order[1..]) && order[0] in s.revisions
    requires u.newest == s.newest && u.failed == s.failed - {order[0]}
    requires |u.waiting| == |s.waiting| + 1 && u.waiting[..|s.waiting|] == s.waiting && Resends(u, u.waiting[|s.waiting|], order[0])
    requires u.revisions == s.revisions[order[0] := s.revisions[order[0]] + 1]
    ensures Resent(s, t, earlier, order)
  {
    var f, rest := order[0], order[1..];
    FirstApart(order);
    FirstStays(s, u, t, earlier, f, rest);
    SavesNext(s, u, t, order);
    hide NewSaves, Resends, Distinct;
    assert (set x | x in order) == {f} + set x | x in rest;
  }

  lemma SavesNext(s: Saves, u: Saves, t: Saves, order: seq<Field>)
    requires order != [] && NewSaves(u, t, order[1..]) && |u.waiting| == |s.waiting| + 1 && u.waiting[..|s.waiting|] == s.waiting
    requires Resends(t, u.waiting[|s.waiting|], order[0])
    ensures NewSaves(s, t, order)
  {
    hide Resends;
    PrefixOf(s.waiting, u.waiting, t.waiting);
    forall i | 0 <= i < |order| ensures Resends(t, t.waiting[|s.waiting| + i], order[i]) {
      if i > 0 {
        assert order[i] == order[1..][i - 1];
        assert Resends(t, t.waiting[|u.waiting| + (i - 1)], order[1..][i - 1]);
      }
    }
  }

  lemma FirstApart(order: seq<Field>)
    requires order != [] && Distinct(order)
    ensures order[0] !in order[1..] && forall f :: f in order <==> f == order[0] || f in order[1..]
  {
    assert order == [order[0]] + order[1..];
    assert forall i | 0 <= i < |order[1..]| :: order[1..][i] == order[i + 1];
  }

  lemma PrefixOf<T>(a: seq<T>, b: seq<T>, c: seq<T>)
    requires |a| < |b| <= |c| && b[..|a|] == a && c[..|b|] == b
    ensures c[..|a|] == a && c[|a|] == b[|a|]
  {
    assert c[..|b|][..|a|] == c[..|a|];
    assert c[..|b|][|a|] == c[|a|];
  }

  /** The save of the first field is the newest still. */
  lemma FirstStays(s: Saves, u: Saves, t: Saves, earlier: seq<(Field, Failed)>, f: Field, rest: seq<Field>)
    requires Resent(u, t, earlier, rest) && f !in rest && |s.waiting| < |u.waiting| && Resends(u, u.waiting[|s.waiting|], f)
    ensures Resends(t, u.waiting[|s.waiting|], f)
  {
  }

  lemma {:induction false} RoundsResend(s: Saves, earlier: seq<(Field, Failed)>, order: seq<Field>)
    requires Inv(s) && Awaits(s, earlier, order)
    ensures CanRun(s, Rounds(|earlier|, |order|)) && Resent(s, Run(s, Rounds(|earlier|, |order|)), earlier, order)
    decreases |order|
  {
    hide Inv, RetryNext, Resent, Resends, NewSaves;
    var k := |earlier|;
    if order == [] {
      assert s.retries == earlier;
      NothingResent(s);
    } else {
      var u := RetryNext(s, k);
      OneRound(s, earlier, order);
      RoundsResend(u, earlier, order[1..]);
      assert Rounds(k, |order|)[1..] == Rounds(k, |order| - 1) && |order[1..]| == |order| - 1;
      ResentNext(s, u, Run(u, Rounds(k, |order| - 1)), earlier, order);
    }
  }

  lemma NothingResent(s: Saves)
    ensures Resent(s, s, s.retries, [])
  {
  }

  // ----- taking the entries -----

  lemma {:induction false} EntriesAre(failed: map<Field, Failed>, order: seq<Field>)
    requires forall f | f in order :: f in failed
    ensures Entries(failed, order) == seq(|order|, i requires 0 <= i < |order| => assert order[i] in order; (order[i], failed[order[i]]))
    decreases |order|
  {
    if order != [] {
      assert order[0] in order && forall f | f in order[1..] :: f in order;
      EntriesAre(failed, order[1..]);
    }
  }

  /** `order` lists the failed fields, as the map of entries does. */
  predicate ListsFailed(s: Saves, order: seq<Field>) {
    Distinct(order) && (forall f | f in order :: f in s.failed) && forall f | f in s.failed :: f in order
  }

  /** Retry, and let every round run: for each field that had failed, and for no other, there is now
      a waiting save of it alone with its newest value at its newest revision, in the order of the
      entries; and no entry is left. */
  lemma RetryRetries(s: Saves, order: seq<Field>)
    requires Inv(s) && ListsFailed(s, order)
    ensures CanRun(s, [OnRetry(order)] + Rounds(|s.retries|, |order|))
    ensures var t := Run(s, [OnRetry(order)] + Rounds(|s.retries|, |order|)); Resent(s, t, s.retries, order) && t.failed == map[]
  {
    var rounds := Rounds(|s.retries|, |order|);
    var u, events := Step(s, OnRetry(order)), [OnRetry(order)] + rounds;
    StepKeeps(s, OnRetry(order));
    AwaitsAll(s, order);
    hide Inv, Rounds, Resent, Awaits, Retry;
    RoundsResend(u, s.retries, order);
    assert events[1..] == rounds;
    SameResent(s, u, Run(u, rounds), order);
  }

  lemma AwaitsAll(s: Saves, order: seq<Field>)
    requires ListsFailed(s, order)
    ensures var u := Step(s, OnRetry(order)); u == s.(retries := u.retries) && Awaits(u, s.retries, order)
  {
    EntriesAre(s.failed, order);
    forall i | 0 <= i < |order| ensures order[i] in s.failed {
      assert order[i] in order;
    }
  }

  lemma SameResent(s: Saves, u: Saves, t: Saves, order: seq<Field>)
    requires u == s.(retries := u.retries) && Resent(u, t, s.retries, order) && ListsFailed(s, order)
    ensures Resent(s, t, s.retries, order) && t.failed == map[]
  {
    assert NewSaves(s, t, order);
    hide NewSaves;
    assert s.failed - (set f | f in order) == map[];
  }
}
