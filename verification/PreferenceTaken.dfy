/** What validateDocument of desktop-preferences.ts makes of the values it is given: what is not given
    stands at its default, most of what is given is kept as it is, and a width is brought to the
    nearest one in its range. */
module PreferenceTaken {
  import opened Wrappers
  import opened PreferenceValues
  import opened PreferenceRoundTrip

  function Distance(a: int, b: int): nat {
    if a < b then b - a else a - b
  }

  /** `w` is in the range, and nothing in the range is nearer to `n`. */
  predicate Nearest(n: int, low: int, high: int, w: int) {
    low <= w <= high && forall other: int | low <= other <= high :: Distance(n, w) <= Distance(n, other)
  }

  predicate IsGiven(fields: map<Name, Js>, key: Key) {
    !Field(fields, Of(key)).Undefined?
  }

  /** Distinct keys are collected apart from each other. */
  lemma {:induction false} CollectTakes(fields: map<Name, Js>, keys: seq<Key>, doc: Doc, key: Key)
    requires Collect(fields, keys, doc).Some? && forall i, j | 0 <= i < j < |keys| :: keys[i] != keys[j]
    ensures var p, after := Normalize(key, Field(fields, Of(key)), DEFAULTS.windowBounds), Collect(fields, keys, doc).value;
            if key in keys && IsGiven(fields, key) then p == Some(Get(after, key)) else Get(after, key) == Get(doc, key)
    decreases |keys|
  {
    hide Normalize, Put, Get, PrefOk;
    if keys != [] {
      var v := Field(fields, Of(keys[0]));
      assert key in keys <==> key == keys[0] || key in keys[1..];
      if v.Undefined? {
        CollectTakes(fields, keys[1..], doc, key);
      } else {
        var p := Normalize(keys[0], v, DEFAULTS.windowBounds);
        CollectTakes(fields, keys[1..], Put(doc, p.value), key);
        PutGet(doc, p.value, key);
        NormalizeOk(keys[0], v, DEFAULTS.windowBounds);
      }
    }
  }

  lemma DocumentTakes(fields: map<Name, Js>, key: Key)
    requires ValidateDocument(Object(fields)).Some?
    ensures var after := ValidateDocument(Object(fields)).value;
            if IsGiven(fields, key) then Normalize(key, Field(fields, Of(key)), DEFAULTS.windowBounds) == Some(Get(after, key))
            else Get(after, key) == Get(DEFAULTS, key)
  {
    hide Collect, Normalize, Get;
    AllKeys(key);
    CollectTakes(fields, KEYS, DEFAULTS, key);
  }

  lemma {:induction false} EachKept<T>(items: seq<Js>, check: Js -> Option<T>, js: T -> Js)
    requires forall v: Js | check(v).Some? :: js(check(v).value) == v
    ensures var r := Each(items, check); r.Some? ==> EachJs(r.value, js) == items
  {
    if items != [] {
      EachKept(items[1..], check, js);
    }
  }

  lemma AliasesKept(v: Js)
    ensures var r := ValidateTextMap(v); r.Some? ==> PrefJs(AliasesPref(r.value)) == v
  {
    var r := ValidateTextMap(v);
    if r.Some? {
      var m := map name | name in r.value :: Text(r.value[name]);
      assert m.Keys == v.fields.Keys;
      forall name | name in m ensures m[name] == v.fields[name] {
        assert RequireText(v.fields[name]).Some?;
      }
      assert m == v.fields;
    }
  }

  lemma ExpandedKept(v: Js)
    ensures var r := ValidateBooleanMap(v); r.Some? ==> PrefJs(ExpandedPref(r.value)) == v
  {
    var r := ValidateBooleanMap(v);
    if r.Some? {
      var m := map name | name in r.value :: Boolean(r.value[name]);
      assert m.Keys == v.fields.Keys;
      assert m == v.fields;
    }
  }

  /** What is kept as it is given. The others are the window's bounds, which may be given in part, the
      widths, the pinned sessions, which lose their duplicates, and the recent projects. */
  predicate IsKept(key: Key) {
    key in {Theme, Language, PanelMode, ProjectAliases, PinnedProjectKeys, ExpandedProjects, SelectedProjectKey, SelectedSessionId}
  }

  lemma NormalizeKeeps(key: Key, v: Js, current: Bounds)
    requires IsKept(key)
    ensures var r := Normalize(key, v, current); r.Some? ==> PrefJs(r.value) == v
  {
    match key
    case ProjectAliases => AliasesKept(v);
    case ExpandedProjects => ExpandedKept(v);
    case PinnedProjectKeys =>
      if ValidateTexts(v).Some? {
        EachKept(v.items, RequireText, TextJs);
      }
    case _ =>
  }

  /** An accepted document holds what it was given, unchanged, and the default where nothing is given. */
  lemma GivenIsKept(fields: map<Name, Js>, key: Key)
    requires ValidateDocument(Object(fields)).Some?
    ensures var after := ValidateDocument(Object(fields)).value;
            && (!IsGiven(fields, key) ==> Get(after, key) == Get(DEFAULTS, key))
            && (IsGiven(fields, key) && IsKept(key) ==> PrefJs(Get(after, key)) == Field(fields, Of(key)))
  {
    hide ValidateDocument, Normalize, Get, PrefJs;
    DocumentTakes(fields, key);
    if IsGiven(fields, key) && IsKept(key) {
      NormalizeKeeps(key, Field(fields, Of(key)), DEFAULTS.windowBounds);
    }
  }

  lemma ClampIsNearest(n: int, low: int, high: int)
    requires low <= high
    ensures Nearest(n, low, high, Clamp(n, low, high))
  {
  }

  /** A width in an accepted document is the nearest one in its range to the one given, which was a
      whole number that JavaScript holds exactly. */
  lemma WidthIsNearest(fields: map<Name, Js>)
    requires ValidateDocument(Object(fields)).Some?
    ensures var after := ValidateDocument(Object(fields)).value;
            && (IsGiven(fields, SidebarWidth) ==>
                  exists n: int | -0x1F_FFFF_FFFF_FFFF <= n <= 0x1F_FFFF_FFFF_FFFF && Nearest(n, 180, 420, after.sidebarWidth) ::
                    Field(fields, Of(SidebarWidth)) == Number(Whole(n)))
            && (IsGiven(fields, RuntimePanelWidth) ==>
                  exists n: int | -0x1F_FFFF_FFFF_FFFF <= n <= 0x1F_FFFF_FFFF_FFFF && Nearest(n, 260, 520, after.runtimePanelWidth) ::
                    Field(fields, Of(RuntimePanelWidth)) == Number(Whole(n)))
  {
    hide ValidateDocument, Nearest;
    DocumentTakes(fields, SidebarWidth);
    DocumentTakes(fields, RuntimePanelWidth);
    var v, w := Field(fields, Of(SidebarWidth)), Field(fields, Of(RuntimePanelWidth));
    if IsGiven(fields, SidebarWidth) {
      ClampIsNearest(v.n.n, 180, 420);
    }
    if IsGiven(fields, RuntimePanelWidth) {
      ClampIsNearest(w.n.n, 260, 520);
    }
  }
}
