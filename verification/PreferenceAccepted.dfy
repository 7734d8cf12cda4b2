/** Which documents desktop-preferences.ts accepts, said without its validators; and what it makes of
    the values that it does not keep as they are: window bounds, recent projects, pinned sessions. */
module PreferenceAccepted {
  import opened Wrappers
  import opened PreferenceValues
  import opened PreferenceRoundTrip
  import opened PreferenceTaken

  // ----- well-formed values -----

  /** A text of 1 to 4096 characters. */
  predicate IsText(v: Js) {
    v.Text? && 1 <= |v.s| <= 4096
  }

  predicate IsName(name: Name) {
    name.Other? ==> 1 <= |name.text| <= 4096
  }

  /** Not there, or of the right form. */
  predicate Given(fields: map<Name, Js>, name: Name, ok: Js -> bool) {
    name !in fields || fields[name] == Undefined || ok(fields[name])
  }

  predicate IsFinite(v: Js) {
    v.Number? && v.n != NotFinite
  }

  predicate IsSize(v: Js) {
    v.Number? && v.n.Whole? && 200 <= v.n.n <= 10000
  }

  predicate IsBoolean(v: Js) {
    v == Boolean(true) || v == Boolean(false)
  }

  /** Whole, and held by a JavaScript number exactly. */
  predicate IsWidth(v: Js) {
    v.Number? && v.n.Whole? && -9007199254740991 <= v.n.n <= 9007199254740991
  }

  predicate IsBounds(v: Js) {
    && v.Object? && (forall name | name in v.fields :: name in {X, Y, Width, Height, Maximized})
    && Given(v.fields, X, IsFinite) && Given(v.fields, Y, IsFinite)
    && Given(v.fields, Width, IsSize) && Given(v.fields, Height, IsSize) && Given(v.fields, Maximized, IsBoolean)
  }

  predicate IsRecent(v: Js) {
    && v.Object? && (forall name | name in v.fields :: name in {Path, Alias, Pinned, LastOpenedAt})
    && Path in v.fields && IsText(v.fields[Path])
    && Given(v.fields, Alias, IsText) && Given(v.fields, LastOpenedAt, IsText) && Given(v.fields, Pinned, IsBoolean)
  }

  predicate IsSession(v: Js) {
    && v.Object? && v.fields.Keys == {ProjectKey, SessionId}
    && IsText(v.fields[ProjectKey]) && IsText(v.fields[SessionId])
  }

  predicate WellFormed(key: Key, v: Js) {
    match key
    case Theme => v in {Text("system"), Text("dark"), Text("light")}
    case Language => v in {Text("zh-CN"), Text("en")}
    case PanelMode => v in {Text("hidden"), Text("docked"), Text("floating")}
    case WindowBounds => IsBounds(v)
    case SidebarWidth => IsWidth(v)
    case RuntimePanelWidth => IsWidth(v)
    case RecentProjects => v.Array? && |v.items| <= 50 && forall i | 0 <= i < |v.items| :: IsRecent(v.items[i])
    case ProjectAliases => v.Object? && forall name | name in v.fields :: IsName(name) && IsText(v.fields[name])
    case PinnedProjectKeys => v.Array? && |v.items| <= 200 && forall i | 0 <= i < |v.items| :: IsText(v.items[i])
    case PinnedSessions => v.Array? && |v.items| <= 500 && forall i | 0 <= i < |v.items| :: IsSession(v.items[i])
    case ExpandedProjects => v.Object? && |v.fields| <= 200 && forall name | name in v.fields :: IsName(name) && IsBoolean(v.fields[name])
    case SelectedProjectKey => v == Null || IsText(v)
    case SelectedSessionId => v == Null || IsText(v)
  }

  // ----- accepted if and only if well-formed -----

  lemma {:induction false} EachIff<T>(items: seq<Js>, check: Js -> Option<T>, ok: Js -> bool)
    requires forall v :: check(v).Some? <==> ok(v)
    ensures Each(items, check).Some? <==> forall i | 0 <= i < |items| :: ok(items[i])
  {
    if items != [] {
      var rest := items[1..];
      EachIff(rest, check, ok);
      assert items[0] == items[0] && forall i | 0 <= i < |rest| :: rest[i] == items[i + 1];
      if ok(items[0]) && forall i | 0 <= i < |rest| :: ok(rest[i]) {
        forall i | 0 <= i < |items| ensures ok(items[i]) {
          if i > 0 {
            assert ok(rest[i - 1]);
          }
        }
      }
    }
  }

  lemma TextIff(v: Js)
    ensures RequireText(v).Some? <==> IsText(v)
  {
  }

  lemma RecentIff(v: Js)
    ensures ValidateRecent(v).Some? <==> IsRecent(v)
  {
  }

  lemma SessionIff(v: Js)
    ensures ValidateSession(v).Some? <==> IsSession(v)
  {
    if v.Object? && v.fields.Keys <= {ProjectKey, SessionId} && ProjectKey in v.fields && SessionId in v.fields {
      assert v.fields.Keys == {ProjectKey, SessionId};
    }
  }

  lemma BoundsIff(v: Js, current: Bounds)
    ensures ValidateBounds(v, current).Some? <==> IsBounds(v)
  {
  }

  lemma ListsIff(key: Key, v: Js, current: Bounds)
    requires key.RecentProjects? || key.PinnedProjectKeys? || key.PinnedSessions?
    ensures Normalize(key, v, current).Some? <==> WellFormed(key, v)
  {
    forall x: Js ensures RequireText(x).Some? <==> IsText(x) {
      TextIff(x);
    }
    forall x: Js ensures ValidateRecent(x).Some? <==> IsRecent(x) {
      RecentIff(x);
    }
    forall x: Js ensures ValidateSession(x).Some? <==> IsSession(x) {
      SessionIff(x);
    }
    if v.Array? {
      EachIff(v.items, RequireText, IsText);
      EachIff(v.items, ValidateRecent, IsRecent);
      EachIff(v.items, ValidateSession, IsSession);
    }
    hide RequireText, ValidateRecent, ValidateSession, IsText, IsRecent, IsSession, Each, Unique;
  }

  lemma MapsIff(v: Js)
    ensures ValidateTextMap(v).Some? <==> WellFormed(ProjectAliases, v)
    ensures ValidateBooleanMap(v).Some? <==> WellFormed(ExpandedProjects, v)
  {
    assert forall name :: NameOk(name) <==> IsName(name);
    forall x: Js ensures RequireText(x).Some? <==> IsText(x) {
      TextIff(x);
    }
    assert forall x: Js :: x.Boolean? <==> IsBoolean(x);
    hide NameOk, IsName, RequireText, IsText, IsBoolean;
  }

  /** A value is accepted for a preference exactly if it is well-formed. */
  lemma AcceptedIff(key: Key, v: Js, current: Bounds)
    ensures Normalize(key, v, current).Some? <==> WellFormed(key, v)
  {
    match key
    case WindowBounds => BoundsIff(v, current);
    case RecentProjects => ListsIff(key, v, current);
    case PinnedProjectKeys => ListsIff(key, v, current);
    case PinnedSessions => ListsIff(key, v, current);
    case ProjectAliases => MapsIff(v);
    case ExpandedProjects => MapsIff(v);
    case _ =>
  }

  lemma {:induction false} CollectIff(fields: map<Name, Js>, keys: seq<Key>, doc: Doc)
    ensures Collect(fields, keys, doc).Some? <==> forall key | key in keys && IsGiven(fields, key) :: WellFormed(key, Field(fields, Of(key)))
    decreases |keys|
  {
    hide Normalize, WellFormed, Put;
    if keys != [] {
      var v := Field(fields, Of(keys[0]));
      assert forall key :: key in keys <==> key == keys[0] || key in keys[1..];
      if v.Undefined? {
        CollectIff(fields, keys[1..], doc);
      } else {
        var p := Normalize(keys[0], v, DEFAULTS.windowBounds);
        AcceptedIff(keys[0], v, DEFAULTS.windowBounds);
        if p.Some? {
          CollectIff(fields, keys[1..], Put(doc, p.value));
        }
      }
    }
  }

  /** A document is accepted if and only if it is an object of known preferences, each of them well-formed
      where it is given. */
  lemma DocumentAcceptedIff(v: Js)
    ensures ValidateDocument(v).Some? <==>
              && v.Object? && (forall name | name in v.fields :: name.Of?)
              && forall key | IsGiven(v.fields, key) :: WellFormed(key, Field(v.fields, Of(key)))
  {
    forall key: Key ensures key in KEYS {
      AllKeys(key);
    }
    if v.Object? {
      CollectIff(v.fields, KEYS, DEFAULTS);
    }
    hide Collect, WellFormed;
  }

  // ----- what is made of the others -----

  predicate TakenAs(fields: map<Name, Js>, name: Name, taken: Js, otherwise: Js) {
    if Field(fields, name).Undefined? then taken == otherwise else taken == fields[name]
  }

  function NumberJs(n: Option<Num>): Js {
    if n.Some? then Number(n.value) else Undefined
  }

  /** Of the window's bounds, what is given is taken, and the rest stays as it is. */
  lemma BoundsAreTaken(v: Js, current: Bounds)
    ensures var r := ValidateBounds(v, current);
            r.Some? ==>
              && TakenAs(v.fields, X, NumberJs(r.value.x), NumberJs(current.x))
              && TakenAs(v.fields, Y, NumberJs(r.value.y), NumberJs(current.y))
              && TakenAs(v.fields, Width, Number(Whole(r.value.width)), Number(Whole(current.width)))
              && TakenAs(v.fields, Height, Number(Whole(r.value.height)), Number(Whole(current.height)))
              && TakenAs(v.fields, Maximized, Boolean(r.value.maximized), Boolean(current.maximized))
  {
  }

  /** Of a recent project, every field that is given is taken, and no other is there. */
  lemma RecentIsTaken(v: Js)
    ensures var r := ValidateRecent(v);
            r.Some? ==>
              && TakenAs(v.fields, Path, Text(r.value.path), Undefined)
              && TakenAs(v.fields, Alias, OptionalJs(r.value.alias), Undefined)
              && TakenAs(v.fields, LastOpenedAt, OptionalJs(r.value.lastOpenedAt), Undefined)
              && TakenAs(v.fields, Pinned, if r.value.pinned.Some? then Boolean(r.value.pinned.value) else Undefined, Undefined)
  {
  }

  lemma {:induction false} EachInPlace<T>(items: seq<Js>, check: Js -> Option<T>)
    ensures var r := Each(items, check); r.Some? ==> forall i | 0 <= i < |items| :: check(items[i]) == Some(r.value[i])
  {
    if items != [] {
      EachInPlace(items[1..], check);
      var r := Each(items, check);
      if r.Some? {
        forall i | 0 <= i < |items| ensures check(items[i]) == Some(r.value[i]) {
          if i > 0 {
            assert items[i] == items[1..][i - 1];
          }
        }
      }
    }
  }

  /** Recent projects are taken one for one, in order. */
  lemma RecentsAreTaken(v: Js)
    ensures var r := ValidateRecents(v);
            r.Some? ==> |r.value| == |v.items| && forall i | 0 <= i < |v.items| :: ValidateRecent(v.items[i]) == Some(r.value[i])
  {
    if v.Array? {
      EachInPlace(v.items, ValidateRecent);
    }
    hide ValidateRecent;
  }

  // ----- pinned sessions -----

  predicate SamePair(a: Session, b: Session) {
    Pair(a) == Pair(b)
  }

  /** Where a session, or one with the same key, comes first. */
  function FirstOf(list: seq<Session>, s: Session): (i: nat)
    ensures i <= |list| && (i < |list| ==> SamePair(list[i], s)) && forall j | 0 <= j < i :: !SamePair(list[j], s)
  {
    if list == [] || SamePair(list[0], s) then 0 else FirstOf(list[1..], s) + 1
  }

  /** The last of the sessions with its key. */
  function LastOf(list: seq<Session>, s: Session): Option<Session> {
    if list == [] then None
    else if SamePair(list[|list| - 1], s) then Some(list[|list| - 1]) else LastOf(list[..|list| - 1], s)
  }

  /** Of the sessions with one key, the last one, in the place of the first one. */
  predicate IsUniqueOf(list: seq<Session>, r: seq<Session>) {
    && (forall i | 0 <= i < |list| :: FirstOf(r, list[i]) < |r|)
    && (forall j | 0 <= j < |r| :: LastOf(list, r[j]) == Some(r[j]))
    && (forall i, j | 0 <= i < j < |r| :: FirstOf(list, r[i]) < FirstOf(list, r[j]))
  }

  /** `Map.set`: the entry with this key is replaced where it stands, or a new one comes last. */
  lemma {:induction false} InsertIs(list: seq<Session>, s: Session)
    ensures var r, i := Insert(list, s), FirstOf(list, s);
            if i < |list| then |r| == |list| && r == list[..i] + [s] + list[i + 1..] else r == list + [s]
    decreases |list|
  {
    hide Pair;
    if list != [] && !SamePair(list[0], s) {
      InsertIs(list[1..], s);
      var i := FirstOf(list[1..], s);
      assert list == [list[0]] + list[1..];
      if i < |list| - 1 {
        assert list[1..][i + 1..] == list[i + 2..];
        assert [list[0]] + list[1..][..i] == list[..i + 1];
      }
    }
  }

  lemma {:induction false} FirstGrows(list: seq<Session>, last: Session, s: Session)
    ensures FirstOf(list + [last], s) == if FirstOf(list, s) < |list| then FirstOf(list, s) else if SamePair(last, s) then |list| else |list| + 1
    decreases |list|
  {
    hide Pair;
    if list == [] {
      assert list + [last] == [last] && [last][1..] == [];
    } else {
      assert (list + [last])[1..] == list[1..] + [last];
      FirstGrows(list[1..], last, s);
    }
  }

  lemma {:induction false} SamePairs(a: seq<Session>, b: seq<Session>, x: Session, y: Session)
    requires |a| == |b| && SamePair(x, y) && forall k | 0 <= k < |a| :: SamePair(a[k], b[k])
    ensures FirstOf(a, x) == FirstOf(b, y)
    decreases |a|
  {
    if a != [] && !SamePair(a[0], x) {
      assert forall k | 0 <= k < |a| - 1 :: a[1..][k] == a[k + 1] && b[1..][k] == b[k + 1];
      SamePairs(a[1..], b[1..], x, y);
    }
  }

  lemma LastGrows(list: seq<Session>, last: Session, s: Session)
    ensures LastOf(list + [last], s) == if SamePair(last, s) then Some(last) else LastOf(list, s)
  {
    assert (list + [last])[..|list|] == list;
  }

  /** Every session put in is there, by its key. */
  lemma FoundIn(list: seq<Session>, s: Session)
    requires s in list
    ensures FirstOf(list, s) < |list|
  {
    var k :| 0 <= k < |list| && list[k] == s;
  }

  lemma ReplacedIsUnique(front: seq<Session>, u: seq<Session>, last: Session, i: nat)
    requires IsUniqueOf(front, u) && DistinctPairs(u) && (forall x | x in u :: x in front)
    requires i < |u| && SamePair(u[i], last)
    ensures IsUniqueOf(front + [last], u[i := last])
  {
    hide Pair, LastOf;
    var list, r := front + [last], u[i := last];
    forall k | 0 <= k < |list| ensures FirstOf(r, list[k]) < |r| {
      SamePairs(u, r, list[k], list[k]);
      SamePairs(u, u, last, u[i]);
      FoundIn(u, u[i]);
    }
    forall j | 0 <= j < |r| ensures LastOf(list, r[j]) == Some(r[j]) {
      LastGrows(front, last, r[j]);
      assert j != i ==> Pair(u[j]) != Pair(u[i]);
    }
    forall j, k | 0 <= j < k < |r| ensures FirstOf(list, r[j]) < FirstOf(list, r[k]) {
      FirstInFront(front, last, u[j], r[j]);
      FirstInFront(front, last, u[k], r[k]);
    }
  }

  lemma FirstInFront(front: seq<Session>, last: Session, x: Session, y: Session)
    requires x in front && SamePair(x, y)
    ensures FirstOf(front + [last], y) == FirstOf(front, x) < |front|
  {
    hide Pair;
    FoundIn(front, x);
    SamePairs(front, front, x, y);
    FirstGrows(front, last, y);
  }

  lemma AddedIsUnique(front: seq<Session>, u: seq<Session>, last: Session)
    requires IsUniqueOf(front, u) && (forall x | x in u :: x in front) && FirstOf(u, last) == |u|
    ensures IsUniqueOf(front + [last], u + [last])
  {
    hide Pair;
    var list, r := front + [last], u + [last];
    if FirstOf(front, last) < |front| {
      FrontIsFound(front, u, last);
    }
    forall k | 0 <= k < |list| ensures FirstOf(r, list[k]) < |r| {
      FirstGrows(u, last, list[k]);
    }
    AddedLast(front, u, last);
    AddedRises(front, u, last);
    hide LastOf, FirstOf;
  }

  lemma AddedRises(front: seq<Session>, u: seq<Session>, last: Session)
    requires (forall x | x in u :: x in front) && FirstOf(front, last) == |front|
    requires forall i, j | 0 <= i < j < |u| :: FirstOf(front, u[i]) < FirstOf(front, u[j])
    ensures var r := u + [last]; forall j, k | 0 <= j < k < |r| :: FirstOf(front + [last], r[j]) < FirstOf(front + [last], r[k])
  {
    hide Pair;
    var list, r := front + [last], u + [last];
    FirstGrows(front, last, last);
    forall j, k | 0 <= j < k < |r| ensures FirstOf(list, r[j]) < FirstOf(list, r[k]) {
      FirstInFront(front, last, u[j], u[j]);
      if k < |u| {
        FirstInFront(front, last, u[k], u[k]);
      }
    }
  }

  lemma AddedLast(front: seq<Session>, u: seq<Session>, last: Session)
    requires (forall j | 0 <= j < |u| :: LastOf(front, u[j]) == Some(u[j])) && FirstOf(u, last) == |u|
    ensures forall j | 0 <= j <= |u| :: LastOf(front + [last], (u + [last])[j]) == Some((u + [last])[j])
  {
    hide Pair, LastOf;
    var r := u + [last];
    forall j | 0 <= j <= |u| ensures LastOf(front + [last], r[j]) == Some(r[j]) {
      LastGrows(front, last, r[j]);
      if j < |u| {
        assert r[j] == u[j] && !SamePair(u[j], last);
      }
    }
  }

  lemma FrontIsFound(front: seq<Session>, u: seq<Session>, last: Session)
    requires IsUniqueOf(front, u) && FirstOf(front, last) < |front|
    ensures FirstOf(u, last) < |u|
  {
    hide Pair, LastOf;
    SamePairs(u, u, front[FirstOf(front, last)], last);
  }

  /** Sessions pinned twice are pinned once: none is lost, each in the place where it came first. */
  lemma {:induction false} UniqueIsUnique(list: seq<Session>)
    ensures IsUniqueOf(list, Unique(list))
    decreases |list|
  {
    hide IsUniqueOf, DistinctPairs, Insert;
    if list == [] {
      NothingIsUnique();
    } else {
      var front, last := list[..|list| - 1], list[|list| - 1];
      var u := Unique(front);
      UniqueIsUnique(front);
      UniqueIsDistinct(front);
      InsertIs(u, last);
      assert list == front + [last];
      var i := FirstOf(u, last);
      if i < |u| {
        assert u[..i] + [last] + u[i + 1..] == u[i := last];
        ReplacedIsUnique(front, u, last, i);
      } else {
        AddedIsUnique(front, u, last);
      }
    }
  }

  lemma NothingIsUnique()
    ensures IsUniqueOf([], [])
  {
  }

  /** Two sessions have the same key exactly if they are the same, unless a project key holds the
      character that separates the parts. */
  lemma SameKeyIff(a: Session, b: Session)
    requires '\0' !in a.projectKey && '\0' !in b.projectKey
    ensures SamePair(a, b) <==> a == b
  {
    if SamePair(a, b) {
      KeyEnds(a, b);
      KeyEnds(b, a);
      assert Pair(a)[..|a.projectKey|] == a.projectKey && Pair(b)[..|b.projectKey|] == b.projectKey;
      assert Pair(a)[|a.projectKey| + 1..] == a.sessionId && Pair(b)[|b.projectKey| + 1..] == b.sessionId;
    }
  }

  lemma KeyEnds(a: Session, b: Session)
    requires '\0' !in a.projectKey && SamePair(a, b)
    ensures |a.projectKey| <= |b.projectKey|
  {
    assert Pair(b)[|b.projectKey|] == '\0';
    assert forall k | 0 <= k < |a.projectKey| :: Pair(a)[k] == a.projectKey[k];
  }

  /** Pinned sessions are taken field by field, and then once each. */
  lemma SessionsAreTaken(v: Js)
    requires ValidateSessions(v).Some?
    ensures DistinctPairs(ValidateSessions(v).value)
    ensures exists list: seq<Session> | |list| == |v.items| && IsUniqueOf(list, ValidateSessions(v).value) ::
              forall i | 0 <= i < |list| :: ValidateSession(v.items[i]) == Some(list[i])
  {
    var list := Each(v.items, ValidateSession).value;
    EachInPlace(v.items, ValidateSession);
    UniqueIsUnique(list);
    UniqueIsDistinct(list);
    hide IsUniqueOf, DistinctPairs, ValidateSession;
  }

  lemma SessionIsTaken(v: Js)
    ensures var r := ValidateSession(v); r.Some? ==> v == SessionJs(r.value)
  {
    if ValidateSession(v).Some? {
      assert v.fields.Keys == {ProjectKey, SessionId};
      assert v.fields == map[ProjectKey := v.fields[ProjectKey], SessionId := v.fields[SessionId]];
    }
  }
}
