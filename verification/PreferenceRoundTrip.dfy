/** validateDocument of desktop-preferences.ts is idempotent: what it returns, written as JSON and
    read back, is accepted unchanged. */
module PreferenceRoundTrip {
  import opened Wrappers
  import opened PreferenceValues

  // ----- normalized values -----

  predicate BoundsOk(b: Bounds) {
    && 200 <= b.width <= 10000 && 200 <= b.height <= 10000
    && (b.x.Some? ==> !b.x.value.NotFinite?) && (b.y.Some? ==> !b.y.value.NotFinite?)
  }

  predicate OptionalOk(t: Option<string>) {
    t.Some? ==> TextOk(t.value)
  }

  predicate RecentOk(r: Recent) {
    TextOk(r.path) && OptionalOk(r.alias) && OptionalOk(r.lastOpenedAt)
  }

  predicate SessionOk(s: Session) {
    TextOk(s.projectKey) && TextOk(s.sessionId)
  }

  predicate DistinctPairs(list: seq<Session>) {
    forall i, j | 0 <= i < j < |list| :: Pair(list[i]) != Pair(list[j])
  }

  predicate PrefOk(p: Pref) {
    match p
    case BoundsPref(b) => BoundsOk(b)
    case SidebarPref(w) => 180 <= w <= 420
    case RuntimePanelPref(w) => 260 <= w <= 520
    case RecentsPref(list) => |list| <= MAX_RECENT_PROJECTS && forall r | r in list :: RecentOk(r)
    case AliasesPref(m) => forall name | name in m :: NameOk(name) && TextOk(m[name])
    case PinnedKeysPref(list) => |list| <= MAX_PINNED_PROJECTS && forall t | t in list :: TextOk(t)
    case PinnedSessionsPref(list) => |list| <= MAX_PINNED_SESSIONS && DistinctPairs(list) && forall s | s in list :: SessionOk(s)
    case ExpandedPref(m) => |m| <= MAX_PINNED_PROJECTS && forall name | name in m :: NameOk(name)
    case ProjectPref(t) => OptionalOk(t)
    case SessionPref(t) => OptionalOk(t)
    case _ => true
  }

  predicate DocOk(d: Doc) {
    forall key: Key :: PrefOk(Get(d, key))
  }

  // ----- as JSON -----

  function OptionalJs(t: Option<string>): Js {
    if t.Some? then Text(t.value) else Undefined
  }

  function NullableJs(t: Option<string>): Js {
    if t.Some? then Text(t.value) else Null
  }

  /** Fields whose value is undefined are left out of JSON. */
  function Given(fields: map<Name, Js>): map<Name, Js> {
    map name | name in fields && !fields[name].Undefined? :: fields[name]
  }

  function BoundsJs(b: Bounds): Js {
    Object(Given(map[X := if b.x.Some? then Number(b.x.value) else Undefined, Y := if b.y.Some? then Number(b.y.value) else Undefined,
                     Width := Number(Whole(b.width)), Height := Number(Whole(b.height)), Maximized := Boolean(b.maximized)]))
  }

  function RecentJs(r: Recent): Js {
    Object(Given(map[Path := Text(r.path), Alias := OptionalJs(r.alias), LastOpenedAt := OptionalJs(r.lastOpenedAt),
                     Pinned := if r.pinned.Some? then Boolean(r.pinned.value) else Undefined]))
  }

  function SessionJs(s: Session): Js {
    Object(map[ProjectKey := Text(s.projectKey), SessionId := Text(s.sessionId)])
  }

  function TextJs(t: string): Js {
    Text(t)
  }

  function EachJs<T>(list: seq<T>, js: T -> Js): (r: seq<Js>)
    ensures |r| == |list|
  {
    if list == [] then [] else [js(list[0])] + EachJs(list[1..], js)
  }

  function PrefJs(p: Pref): Js {
    match p
    case ThemePref(t) => Text(match t case System => "system" case Dark => "dark" case Light => "light")
    case LanguagePref(t) => Text(if t.Chinese? then "zh-CN" else "en")
    case BoundsPref(b) => BoundsJs(b)
    case PanelPref(m) => Text(match m case Hidden => "hidden" case Docked => "docked" case Floating => "floating")
    case SidebarPref(w) => Number(Whole(w))
    case RuntimePanelPref(w) => Number(Whole(w))
    case RecentsPref(list) => Array(EachJs(list, RecentJs))
    case AliasesPref(m) => Object(map name | name in m :: Text(m[name]))
    case PinnedKeysPref(list) => Array(EachJs(list, TextJs))
    case PinnedSessionsPref(list) => Array(EachJs(list, SessionJs))
    case ExpandedPref(m) => Object(map name | name in m :: Boolean(m[name]))
    case ProjectPref(t) => NullableJs(t)
    case SessionPref(t) => NullableJs(t)
  }

  function DocJs(d: Doc): Js {
    Object(map key: Key {:trigger Of(key)} | key in KEYS :: Of(key) := PrefJs(Get(d, key)))
  }

  // ----- what the validators return is normalized -----

  lemma {:induction false} EachFrom<T>(items: seq<Js>, check: Js -> Option<T>, ok: T -> bool)
    requires forall v: Js :: check(v).Some? ==> ok(check(v).value)
    ensures var r := Each(items, check); r.Some? ==> forall x | x in r.value :: ok(x)
    decreases |items|
  {
    if items != [] {
      EachFrom(items[1..], check, ok);
    }
  }

  lemma {:induction false} InsertKeeps(list: seq<Session>, s: Session)
    requires DistinctPairs(list)
    ensures var r := Insert(list, s);
            && DistinctPairs(r) && |r| <= |list| + 1
            && (forall x | x in r :: x in list || x == s)
            && (forall x | x in r :: Pair(x) == Pair(s) || x in list)
    decreases |list|
  {
    if list != [] {
      var rest := list[1..];
      assert forall i | 0 <= i < |rest| :: rest[i] == list[i + 1];
      if Pair(list[0]) == Pair(s) {
        SameFirst(list, s);
      } else {
        InsertKeeps(rest, s);
        var r := Insert(rest, s);
        forall i | 0 <= i < |r| ensures Pair(r[i]) != Pair(list[0]) {
          assert r[i] in r;
          if r[i] in rest {
            var k :| 0 <= k < |rest| && rest[k] == r[i];
            assert Pair(list[0]) != Pair(list[k + 1]);
          }
        }
        DistinctCons(list[0], r);
      }
    }
  }

  lemma SameFirst(list: seq<Session>, s: Session)
    requires list != [] && DistinctPairs(list) && Pair(list[0]) == Pair(s)
    ensures DistinctPairs([s] + list[1..])
  {
    var r := [s] + list[1..];
    forall i, j | 0 <= i < j < |r| ensures Pair(r[i]) != Pair(r[j]) {
      assert Pair(list[i]) != Pair(list[j]);
    }
  }

  lemma DistinctCons(x: Session, r: seq<Session>)
    requires DistinctPairs(r) && forall i | 0 <= i < |r| :: Pair(r[i]) != Pair(x)
    ensures DistinctPairs([x] + r)
  {
    hide Pair;
    var l := [x] + r;
    forall i, j | 0 <= i < j < |l| ensures Pair(l[i]) != Pair(l[j]) {
      if i > 0 {
        assert Pair(r[i - 1]) != Pair(r[j - 1]);
      } else {
        assert Pair(r[j - 1]) != Pair(x);
      }
    }
  }

  lemma {:induction false} UniqueIsDistinct(list: seq<Session>)
    ensures var r := Unique(list); DistinctPairs(r) && |r| <= |list| && forall x | x in r :: x in list
    decreases |list|
  {
    hide Pair, Insert;
    if list != [] {
      var front, last := list[..|list| - 1], list[|list| - 1];
      UniqueIsDistinct(front);
      InsertKeeps(Unique(front), last);
      assert list == front + [last];
    }
  }

  /** What a validator returns is normalized, and for the key it was asked about. */
  lemma NormalizeOk(key: Key, v: Js, current: Bounds)
    requires BoundsOk(current)
    ensures var r := Normalize(key, v, current); r.Some? ==> PrefOk(r.value) && KeyOf(r.value) == key
  {
    match key
    case RecentProjects => RecentsOk(v);
    case PinnedProjectKeys => PinnedKeysOk(v);
    case PinnedSessions => SessionsOk(v);
    case ExpandedProjects => ExpandedOk(v);
    case _ => PlainOk(key, v, current);
  }

  lemma PlainOk(key: Key, v: Js, current: Bounds)
    requires BoundsOk(current) && !key.RecentProjects? && !key.PinnedProjectKeys? && !key.PinnedSessions? && !key.ExpandedProjects?
    ensures var r := Normalize(key, v, current); r.Some? ==> PrefOk(r.value) && KeyOf(r.value) == key
  {
  }

  lemma RecentsOk(v: Js)
    ensures var r := ValidateRecents(v); r.Some? ==> PrefOk(RecentsPref(r.value))
  {
    if v.Array? {
      EachFrom(v.items, ValidateRecent, RecentOk);
    }
  }

  lemma PinnedKeysOk(v: Js)
    ensures var r := ValidateTexts(v); r.Some? ==> PrefOk(PinnedKeysPref(r.value))
  {
    if v.Array? {
      EachFrom(v.items, RequireText, TextOk);
    }
  }

  lemma SessionsOk(v: Js)
    ensures var r := ValidateSessions(v); r.Some? ==> PrefOk(PinnedSessionsPref(r.value))
  {
    if v.Array? {
      EachFrom(v.items, ValidateSession, SessionOk);
      var list := Each(v.items, ValidateSession);
      if list.Some? {
        UniqueIsDistinct(list.value);
      }
    }
  }

  lemma ExpandedOk(v: Js)
    ensures var r := ValidateBooleanMap(v); r.Some? ==> PrefOk(ExpandedPref(r.value))
  {
    var r := ValidateBooleanMap(v);
    if r.Some? {
      assert r.value.Keys == v.fields.Keys;
      SameSize(r.value, v.fields);
    }
  }

  lemma SameSize<A, B>(m: map<Name, A>, n: map<Name, B>)
    requires m.Keys == n.Keys
    ensures |m| == |n|
  {
    assert |m| == |m.Keys| && |n| == |n.Keys|;
  }

  // ----- what is normalized is accepted as it is -----

  lemma {:induction false} EachBack<T>(list: seq<T>, js: T -> Js, check: Js -> Option<T>)
    requires forall x | x in list :: check(js(x)) == Some(x)
    ensures Each(EachJs(list, js), check) == Some(list)
    decreases |list|
  {
    if list != [] {
      assert list[0] in list;
      assert forall x | x in list[1..] :: x in list;
      EachBack(list[1..], js, check);
      assert EachJs(list, js)[1..] == EachJs(list[1..], js);
      assert [list[0]] + list[1..] == list;
    }
  }

  lemma {:induction false} InsertNew(list: seq<Session>, s: Session)
    requires forall x | x in list :: Pair(x) != Pair(s)
    ensures Insert(list, s) == list + [s]
    decreases |list|
  {
    hide Pair;
    if list != [] {
      assert list[0] in list;
      assert forall x | x in list[1..] :: x in list;
      InsertNew(list[1..], s);
      assert [list[0]] + (list[1..] + [s]) == list + [s];
    }
  }

  lemma {:induction false} UniqueBack(list: seq<Session>)
    requires DistinctPairs(list)
    ensures Unique(list) == list
    decreases |list|
  {
    hide Pair, Insert;
    if list != [] {
      var front, last := list[..|list| - 1], list[|list| - 1];
      UniqueBack(front);
      forall x | x in front ensures Pair(x) != Pair(last) {
        var i :| 0 <= i < |front| && front[i] == x;
        assert Pair(list[i]) != Pair(list[|list| - 1]);
      }
      InsertNew(front, last);
      assert front + [last] == list;
    }
  }

  lemma BoundsBack(b: Bounds)
    requires PrefOk(BoundsPref(b))
    ensures ValidateBounds(BoundsJs(b), DEFAULTS.windowBounds) == Some(b)
  {
    var fields := BoundsJs(b).fields;
    assert Field(fields, X) == if b.x.Some? then Number(b.x.value) else Undefined;
    assert Field(fields, Y) == if b.y.Some? then Number(b.y.value) else Undefined;
    assert Field(fields, Width) == Number(Whole(b.width)) && Field(fields, Height) == Number(Whole(b.height));
    assert Field(fields, Maximized) == Boolean(b.maximized);
  }

  lemma RecentBack(r: Recent)
    requires RecentOk(r)
    ensures ValidateRecent(RecentJs(r)) == Some(r)
  {
    var fields := RecentJs(r).fields;
    assert Field(fields, Path) == Text(r.path) && Field(fields, Alias) == OptionalJs(r.alias);
    assert Field(fields, LastOpenedAt) == OptionalJs(r.lastOpenedAt);
    assert Field(fields, Pinned) == if r.pinned.Some? then Boolean(r.pinned.value) else Undefined;
  }

  lemma AliasesBack(m: map<Name, string>)
    requires PrefOk(AliasesPref(m))
    ensures ValidateTextMap(PrefJs(AliasesPref(m))) == Some(m)
  {
    var js := PrefJs(AliasesPref(m));
    assert js.fields.Keys == m.Keys;
    assert forall name | name in js.fields :: js.fields[name] == Text(m[name]) && RequireText(js.fields[name]) == Some(m[name]);
    var r := ValidateTextMap(js);
    assert r.Some? && r.value == m;
  }

  lemma ExpandedBack(m: map<Name, bool>)
    requires PrefOk(ExpandedPref(m))
    ensures ValidateBooleanMap(PrefJs(ExpandedPref(m))) == Some(m)
  {
    var js := PrefJs(ExpandedPref(m));
    assert js.fields.Keys == m.Keys;
    SameSize(m, js.fields);
    assert forall name | name in js.fields :: js.fields[name] == Boolean(m[name]);
    var r := ValidateBooleanMap(js);
    assert r.Some? && r.value == m;
  }

  /** Every normalized preference survives being written and read. */
  lemma NormalizeBack(p: Pref)
    requires PrefOk(p)
    ensures Normalize(KeyOf(p), PrefJs(p), DEFAULTS.windowBounds) == Some(p) && !PrefJs(p).Undefined?
  {
    hide PrefOk, ValidateRecents, ValidateTexts, ValidateSessions, ValidateTextMap, ValidateBooleanMap, ValidateBounds, EachJs;
    match p
    case BoundsPref(b) => BoundsBack(b);
    case RecentsPref(list) => RecentsBack(list);
    case AliasesPref(m) => AliasesBack(m);
    case PinnedKeysPref(list) => PinnedKeysBack(list);
    case PinnedSessionsPref(list) => SessionsBack(list);
    case ExpandedPref(m) => ExpandedBack(m);
    case _ => PlainBack(p);
  }

  lemma PlainBack(p: Pref)
    requires PrefOk(p)
    requires p.ThemePref? || p.LanguagePref? || p.PanelPref? || p.SidebarPref? || p.RuntimePanelPref? || p.ProjectPref? || p.SessionPref?
    ensures Normalize(KeyOf(p), PrefJs(p), DEFAULTS.windowBounds) == Some(p)
  {
  }

  lemma RecentsBack(list: seq<Recent>)
    requires PrefOk(RecentsPref(list))
    ensures ValidateRecents(PrefJs(RecentsPref(list))) == Some(list)
  {
    forall r | r in list {
      RecentBack(r);
    }
    EachBack(list, RecentJs, ValidateRecent);
  }

  lemma PinnedKeysBack(list: seq<string>)
    requires PrefOk(PinnedKeysPref(list))
    ensures ValidateTexts(PrefJs(PinnedKeysPref(list))) == Some(list)
  {
    EachBack(list, TextJs, RequireText);
  }

  lemma SessionsBack(list: seq<Session>)
    requires PrefOk(PinnedSessionsPref(list))
    ensures ValidateSessions(PrefJs(PinnedSessionsPref(list))) == Some(list)
  {
    EachBack(list, SessionJs, ValidateSession);
    UniqueBack(list);
  }

  // ----- whole documents -----

  lemma DefaultsOk()
    ensures DocOk(DEFAULTS)
  {
    forall key: Key ensures PrefOk(Get(DEFAULTS, key)) {
      match key
      case _ =>
    }
  }

  lemma PutOk(d: Doc, p: Pref)
    requires DocOk(d) && PrefOk(p)
    ensures DocOk(Put(d, p))
  {
    hide PrefOk;
    forall key: Key ensures PrefOk(Get(Put(d, p), key)) {
      PutGet(d, p, key);
      assert PrefOk(Get(d, key));
    }
  }

  lemma {:induction false} CollectOk(fields: map<Name, Js>, keys: seq<Key>, doc: Doc)
    requires DocOk(doc)
    ensures var r := Collect(fields, keys, doc); r.Some? ==> DocOk(r.value)
    decreases |keys|
  {
    hide DocOk, Normalize, Put;
    if keys != [] {
      var v := Field(fields, Of(keys[0]));
      if v.Undefined? {
        CollectOk(fields, keys[1..], doc);
      } else {
        var p := Normalize(keys[0], v, DEFAULTS.windowBounds);
        if p.Some? {
          NormalizeOk(keys[0], v, DEFAULTS.windowBounds);
          PutOk(doc, p.value);
          CollectOk(fields, keys[1..], Put(doc, p.value));
        }
      }
    }
  }

  /** A document that is accepted is normalized. */
  lemma ValidatedOk(v: Js)
    ensures var r := ValidateDocument(v); r.Some? ==> DocOk(r.value)
  {
    hide DocOk;
    DefaultsOk();
    if v.Object? {
      CollectOk(v.fields, KEYS, DEFAULTS);
    }
  }

  /** The two documents agree on the keys that are not in the list any more. */
  predicate AgreeBut(a: Doc, b: Doc, keys: seq<Key>) {
    forall key: Key | key !in keys :: Get(a, key) == Get(b, key)
  }

  lemma {:induction false} CollectBack(d: Doc, keys: seq<Key>, doc: Doc)
    requires DocOk(d) && AgreeBut(doc, d, keys) && forall key | key in keys :: key in KEYS
    ensures Collect(DocJs(d).fields, keys, doc) == Some(d)
    decreases |keys|
  {
    hide Normalize, Put, Get, PrefOk, PrefJs;
    if keys == [] {
      SameDoc(doc, d);
    } else {
      var key, p := keys[0], Get(d, keys[0]);
      assert key in KEYS && PrefOk(p);
      GetKey(d, key);
      NormalizeBack(p);
      assert Of(key) in DocJs(d).fields && DocJs(d).fields[Of(key)] == PrefJs(p);
      forall k: Key | k !in keys[1..] ensures Get(Put(doc, p), k) == Get(d, k) {
        PutGet(doc, p, k);
        assert k != key ==> k !in keys;
      }
      CollectBack(d, keys[1..], Put(doc, p));
    }
  }

  lemma GetKey(d: Doc, key: Key)
    ensures KeyOf(Get(d, key)) == key
  {
  }

  lemma AllKeys(key: Key)
    ensures key in KEYS
  {
    assert KEYS[0].Theme? && KEYS[1].Language? && KEYS[2].WindowBounds? && KEYS[3].PanelMode? && KEYS[4].SidebarWidth?;
    assert KEYS[5].RuntimePanelWidth? && KEYS[6].RecentProjects? && KEYS[7].ProjectAliases? && KEYS[8].PinnedProjectKeys?;
    assert KEYS[9].PinnedSessions? && KEYS[10].ExpandedProjects? && KEYS[11].SelectedProjectKey? && KEYS[12].SelectedSessionId?;
  }

  /** A normalized document, written as JSON, is accepted unchanged. */
  lemma DocumentBack(d: Doc)
    requires DocOk(d)
    ensures ValidateDocument(DocJs(d)) == Some(d)
  {
    hide Collect, DocOk, Get, PrefJs;
    forall key: Key ensures key in KEYS {
      AllKeys(key);
    }
    CollectBack(d, KEYS, DEFAULTS);
  }

  /** Validating is idempotent, for values of any shape. */
  lemma ValidateIsIdempotent(v: Js)
    ensures var r := ValidateDocument(v); r.Some? ==> ValidateDocument(DocJs(r.value)) == r
  {
    hide ValidateDocument;
    ValidatedOk(v);
    var r := ValidateDocument(v);
    if r.Some? {
      DocumentBack(r.value);
    }
  }
}
