/** The validators of desktop-preferences.ts: values of any shape are refused or normalized, and a
    normalized document is accepted again as it is. */
module PreferenceValues {
  import opened Wrappers

  // ----- JavaScript values -----

  /** Property names: the ones the code mentions, and all others. */
  datatype Name = X | Y | Width | Height | Maximized | Path | Alias | Pinned | LastOpenedAt | ProjectKey | SessionId
    | Of(key: Key) | Other(text: string)

  datatype Key = Theme | Language | WindowBounds | PanelMode | SidebarWidth | RuntimePanelWidth | RecentProjects
    | ProjectAliases | PinnedProjectKeys | PinnedSessions | ExpandedProjects | SelectedProjectKey | SelectedSessionId

  datatype Num = Whole(n: int) | Fraction(r: real) | NotFinite

  datatype Js = Undefined | Null | Boolean(b: bool) | Number(n: Num) | Text(s: string) | Array(items: seq<Js>)
    | Object(fields: map<Name, Js>) | OtherValue

  function Field(fields: map<Name, Js>, name: Name): Js {
    if name in fields then fields[name] else Undefined
  }

  // ----- documents -----

  datatype ThemeMode = System | Dark | Light
  datatype Tongue = Chinese | English
  datatype Panel = Hidden | Docked | Floating
  datatype Bounds = Bounds(x: Option<Num>, y: Option<Num>, width: int, height: int, maximized: bool)
  datatype Recent = Recent(path: string, alias: Option<string>, pinned: Option<bool>, lastOpenedAt: Option<string>)
  datatype Session = Session(projectKey: string, sessionId: string)

  datatype Doc = Doc(theme: ThemeMode, language: Tongue, windowBounds: Bounds, panelMode: Panel, sidebarWidth: int,
    runtimePanelWidth: int, recentProjects: seq<Recent>, projectAliases: map<Name, string>, pinnedProjectKeys: seq<string>,
    pinnedSessions: seq<Session>, expandedProjects: map<Name, bool>, selectedProjectKey: Option<string>,
    selectedSessionId: Option<string>)

  const DEFAULTS := Doc(System, Chinese, Bounds(None, None, 1280, 800, false), Docked, 286, 318, [], map[], [], [], map[], None, None)

  const MAX_STRING_LENGTH := 4096
  const MAX_RECENT_PROJECTS := 50
  const MAX_PINNED_PROJECTS := 200
  const MAX_PINNED_SESSIONS := 500
  const MAX_SAFE := 0x1F_FFFF_FFFF_FFFF

  /** One preference: its value, once normalized. */
  datatype Pref = ThemePref(theme: ThemeMode) | LanguagePref(language: Tongue) | BoundsPref(bounds: Bounds)
    | PanelPref(panel: Panel) | SidebarPref(width: int) | RuntimePanelPref(width: int) | RecentsPref(recents: seq<Recent>)
    | AliasesPref(aliases: map<Name, string>) | PinnedKeysPref(keys: seq<string>) | PinnedSessionsPref(sessions: seq<Session>)
    | ExpandedPref(expanded: map<Name, bool>) | ProjectPref(selected: Option<string>) | SessionPref(selected: Option<string>)

  function KeyOf(p: Pref): Key {
    match p
    case ThemePref(_) => Theme
    case LanguagePref(_) => Language
    case BoundsPref(_) => WindowBounds
    case PanelPref(_) => PanelMode
    case SidebarPref(_) => SidebarWidth
    case RuntimePanelPref(_) => RuntimePanelWidth
    case RecentsPref(_) => RecentProjects
    case AliasesPref(_) => ProjectAliases
    case PinnedKeysPref(_) => PinnedProjectKeys
    case PinnedSessionsPref(_) => PinnedSessions
    case ExpandedPref(_) => ExpandedProjects
    case ProjectPref(_) => SelectedProjectKey
    case SessionPref(_) => SelectedSessionId
  }

  function Get(d: Doc, key: Key): Pref {
    match key
    case Theme => ThemePref(d.theme)
    case Language => LanguagePref(d.language)
    case WindowBounds => BoundsPref(d.windowBounds)
    case PanelMode => PanelPref(d.panelMode)
    case SidebarWidth => SidebarPref(d.sidebarWidth)
    case RuntimePanelWidth => RuntimePanelPref(d.runtimePanelWidth)
    case RecentProjects => RecentsPref(d.recentProjects)
    case ProjectAliases => AliasesPref(d.projectAliases)
    case PinnedProjectKeys => PinnedKeysPref(d.pinnedProjectKeys)
    case PinnedSessions => PinnedSessionsPref(d.pinnedSessions)
    case ExpandedProjects => ExpandedPref(d.expandedProjects)
    case SelectedProjectKey => ProjectPref(d.selectedProjectKey)
    case SelectedSessionId => SessionPref(d.selectedSessionId)
  }

  /** `{ ...d, [key]: normalized }`. */
  function Put(d: Doc, p: Pref): Doc {
    match p
    case ThemePref(v) => d.(theme := v)
    case LanguagePref(v) => d.(language := v)
    case BoundsPref(v) => d.(windowBounds := v)
    case PanelPref(v) => d.(panelMode := v)
    case SidebarPref(v) => d.(sidebarWidth := v)
    case RuntimePanelPref(v) => d.(runtimePanelWidth := v)
    case RecentsPref(v) => d.(recentProjects := v)
    case AliasesPref(v) => d.(projectAliases := v)
    case PinnedKeysPref(v) => d.(pinnedProjectKeys := v)
    case PinnedSessionsPref(v) => d.(pinnedSessions := v)
    case ExpandedPref(v) => d.(expandedProjects := v)
    case ProjectPref(v) => d.(selectedProjectKey := v)
    case SessionPref(v) => d.(selectedSessionId := v)
  }

  /** Writing one preference leaves the others alone. */
  lemma PutGet(d: Doc, p: Pref, key: Key)
    ensures Get(Put(d, p), key) == if key == KeyOf(p) then p else Get(d, key)
  {
  }

  lemma SameDoc(a: Doc, b: Doc)
    requires forall key: Key :: Get(a, key) == Get(b, key)
    ensures a == b
  {
    SameLook(a, b);
    SameLists(a, b);
  }

  lemma SameLook(a: Doc, b: Doc)
    requires forall key: Key :: Get(a, key) == Get(b, key)
    ensures a.theme == b.theme && a.language == b.language && a.windowBounds == b.windowBounds && a.panelMode == b.panelMode
    ensures a.sidebarWidth == b.sidebarWidth && a.runtimePanelWidth == b.runtimePanelWidth
  {
    assert Get(a, Theme) == Get(b, Theme) && Get(a, Language) == Get(b, Language) && Get(a, WindowBounds) == Get(b, WindowBounds);
    assert Get(a, PanelMode) == Get(b, PanelMode) && Get(a, SidebarWidth) == Get(b, SidebarWidth);
    assert Get(a, RuntimePanelWidth) == Get(b, RuntimePanelWidth);
  }

  lemma SameLists(a: Doc, b: Doc)
    requires forall key: Key :: Get(a, key) == Get(b, key)
    ensures a.recentProjects == b.recentProjects && a.projectAliases == b.projectAliases
    ensures a.pinnedProjectKeys == b.pinnedProjectKeys && a.pinnedSessions == b.pinnedSessions
    ensures a.expandedProjects == b.expandedProjects && a.selectedProjectKey == b.selectedProjectKey
    ensures a.selectedSessionId == b.selectedSessionId
  {
    assert Get(a, RecentProjects) == Get(b, RecentProjects) && Get(a, ProjectAliases) == Get(b, ProjectAliases);
    assert Get(a, PinnedProjectKeys) == Get(b, PinnedProjectKeys) && Get(a, PinnedSessions) == Get(b, PinnedSessions);
    assert Get(a, ExpandedProjects) == Get(b, ExpandedProjects);
    assert Get(a, SelectedProjectKey) == Get(b, SelectedProjectKey) && Get(a, SelectedSessionId) == Get(b, SelectedSessionId);
  }

  // ----- validators: None stands for a PreferenceValidationError -----

  predicate TextOk(s: string) {
    0 < |s| <= MAX_STRING_LENGTH
  }

  predicate NameOk(name: Name) {
    name.Other? ==> TextOk(name.text)
  }

  function RequireText(v: Js): Option<string> {
    if v.Text? && TextOk(v.s) then Some(v.s) else None
  }

  function OptionalText(v: Js): Option<Option<string>> {
    if v.Undefined? then Some(None)
    else if v.Text? && TextOk(v.s) then Some(Some(v.s)) else None
  }

  function NullableText(v: Js): Option<Option<string>> {
    if v.Null? then Some(None) else if v.Text? && TextOk(v.s) then Some(Some(v.s)) else None
  }

  function ValidateTheme(v: Js): Option<ThemeMode> {
    if v == Text("system") then Some(System)
    else if v == Text("dark") then Some(Dark)
    else if v == Text("light") then Some(Light)
    else None
  }

  function ValidateLanguage(v: Js): Option<Tongue> {
    if v == Text("zh-CN") then Some(Chinese) else if v == Text("en") then Some(English) else None
  }

  function ValidatePanelMode(v: Js): Option<Panel> {
    if v == Text("hidden") then Some(Hidden)
    else if v == Text("docked") then Some(Docked)
    else if v == Text("floating") then Some(Floating)
    else None
  }

  function Clamp(n: int, low: int, high: int): int
    requires low <= high
  {
    if n < low then low else if n > high then high else n
  }

  /** A width out of range is brought into it, not refused. */
  function ValidateWidth(v: Js, low: int, high: int): Option<int>
    requires low <= high
  {
    if v.Number? && v.n.Whole? && -MAX_SAFE <= v.n.n <= MAX_SAFE then Some(Clamp(v.n.n, low, high)) else None
  }

  function FiniteOr(v: Js, current: Option<Num>): Option<Option<Num>> {
    if v.Undefined? then Some(current) else if v.Number? && !v.n.NotFinite? then Some(Some(v.n)) else None
  }

  function SizeOr(v: Js, current: int): Option<int> {
    if v.Undefined? then Some(current)
    else if v.Number? && v.n.Whole? && 200 <= v.n.n <= 10000 then Some(v.n.n) else None
  }

  function BooleanOr(v: Js, current: bool): Option<bool> {
    if v.Undefined? then Some(current) else if v.Boolean? then Some(v.b) else None
  }

  /** Fields that are not given stay as they are. */
  function ValidateBounds(v: Js, current: Bounds): Option<Bounds> {
    if !v.Object? || !(v.fields.Keys <= {X, Y, Width, Height, Maximized}) then None
    else
      var x, y := FiniteOr(Field(v.fields, X), current.x), FiniteOr(Field(v.fields, Y), current.y);
      var width, height := SizeOr(Field(v.fields, Width), current.width), SizeOr(Field(v.fields, Height), current.height);
      var maximized := BooleanOr(Field(v.fields, Maximized), current.maximized);
      if x.None? || y.None? || width.None? || height.None? || maximized.None? then None
      else Some(Bounds(x.value, y.value, width.value, height.value, maximized.value))
  }

  /** `value.map(...)`: one refusal refuses all. */
  function Each<T>(items: seq<Js>, check: Js -> Option<T>): (r: Option<seq<T>>)
    ensures r.Some? ==> |r.value| == |items|
  {
    if items == [] then Some([])
    else
      var first, rest := check(items[0]), Each(items[1..], check);
      if first.None? || rest.None? then None else Some([first.value] + rest.value)
  }

  function ValidateRecent(v: Js): Option<Recent> {
    if !v.Object? || !(v.fields.Keys <= {Path, Alias, Pinned, LastOpenedAt}) then None
    else
      var path := RequireText(Field(v.fields, Path));
      var alias, last := OptionalText(Field(v.fields, Alias)), OptionalText(Field(v.fields, LastOpenedAt));
      var pinned := Field(v.fields, Pinned);
      if path.None? || alias.None? || last.None? || !(pinned.Undefined? || pinned.Boolean?) then None
      else Some(Recent(path.value, alias.value, if pinned.Boolean? then Some(pinned.b) else None, last.value))
  }

  function ValidateRecents(v: Js): Option<seq<Recent>> {
    if !v.Array? || |v.items| > MAX_RECENT_PROJECTS then None else Each(v.items, ValidateRecent)
  }

  function ValidateTextMap(v: Js): Option<map<Name, string>> {
    if !v.Object? || (exists name | name in v.fields :: !NameOk(name) || RequireText(v.fields[name]).None?) then None
    else Some(map name | name in v.fields :: RequireText(v.fields[name]).value)
  }

  function ValidateBooleanMap(v: Js): Option<map<Name, bool>> {
    if !v.Object? || |v.fields| > MAX_PINNED_PROJECTS
       || (exists name | name in v.fields :: !NameOk(name) || !v.fields[name].Boolean?) then None
    else Some(map name | name in v.fields :: v.fields[name].b)
  }

  function ValidateTexts(v: Js): Option<seq<string>> {
    if !v.Array? || |v.items| > MAX_PINNED_PROJECTS then None else Each(v.items, RequireText)
  }

  function ValidateSession(v: Js): Option<Session> {
    if !v.Object? || !(v.fields.Keys <= {ProjectKey, SessionId}) then None
    else
      var project, session := RequireText(Field(v.fields, ProjectKey)), RequireText(Field(v.fields, SessionId));
      if project.None? || session.None? then None else Some(Session(project.value, session.value))
  }

  /** The key of the map that removes duplicates. */
  function Pair(s: Session): string {
    s.projectKey + "\0" + s.sessionId
  }

  /** `Map.set`: a session already there is replaced where it stands. */
  function Insert(list: seq<Session>, s: Session): seq<Session> {
    if list == [] then [s]
    else if Pair(list[0]) == Pair(s) then [s] + list[1..]
    else [list[0]] + Insert(list[1..], s)
  }

  function Unique(list: seq<Session>): seq<Session> {
    if list == [] then [] else Insert(Unique(list[..|list| - 1]), list[|list| - 1])
  }

  function ValidateSessions(v: Js): Option<seq<Session>> {
    if !v.Array? || |v.items| > MAX_PINNED_SESSIONS then None
    else
      var list := Each(v.items, ValidateSession);
      if list.None? then None else Some(Unique(list.value))
  }

  /** One preference, normalized; only the window's bounds depend on the current ones. */
  function Normalize(key: Key, v: Js, current: Bounds): Option<Pref> {
    match key
    case Theme => var r := ValidateTheme(v); if r.None? then None else Some(ThemePref(r.value))
    case Language => var r := ValidateLanguage(v); if r.None? then None else Some(LanguagePref(r.value))
    case WindowBounds => var r := ValidateBounds(v, current); if r.None? then None else Some(BoundsPref(r.value))
    case PanelMode => var r := ValidatePanelMode(v); if r.None? then None else Some(PanelPref(r.value))
    case SidebarWidth => var r := ValidateWidth(v, 180, 420); if r.None? then None else Some(SidebarPref(r.value))
    case RuntimePanelWidth => var r := ValidateWidth(v, 260, 520); if r.None? then None else Some(RuntimePanelPref(r.value))
    case RecentProjects => var r := ValidateRecents(v); if r.None? then None else Some(RecentsPref(r.value))
    case ProjectAliases => var r := ValidateTextMap(v); if r.None? then None else Some(AliasesPref(r.value))
    case PinnedProjectKeys => var r := ValidateTexts(v); if r.None? then None else Some(PinnedKeysPref(r.value))
    case PinnedSessions => var r := ValidateSessions(v); if r.None? then None else Some(PinnedSessionsPref(r.value))
    case ExpandedProjects => var r := ValidateBooleanMap(v); if r.None? then None else Some(ExpandedPref(r.value))
    case SelectedProjectKey => var r := NullableText(v); if r.None? then None else Some(ProjectPref(r.value))
    case SelectedSessionId => var r := NullableText(v); if r.None? then None else Some(SessionPref(r.value))
  }

  const KEYS := [Theme, Language, WindowBounds, PanelMode, SidebarWidth, RuntimePanelWidth, RecentProjects, ProjectAliases,
    PinnedProjectKeys, PinnedSessions, ExpandedProjects, SelectedProjectKey, SelectedSessionId]

  /** The preferences that are given, one after the other, on top of the defaults. */
  function Collect(fields: map<Name, Js>, keys: seq<Key>, doc: Doc): Option<Doc>
    decreases |keys|
  {
    if keys == [] then Some(doc)
    else
      var v := Field(fields, Of(keys[0]));
      if v.Undefined? then Collect(fields, keys[1..], doc)
      else
        var p := Normalize(keys[0], v, DEFAULTS.windowBounds);
        if p.None? then None else Collect(fields, keys[1..], Put(doc, p.value))
  }

  function ValidateDocument(v: Js): Option<Doc> {
    if !v.Object? || (exists name | name in v.fields :: !name.Of?) then None
    else Collect(v.fields, KEYS, DEFAULTS)
  }
}
