/** The offline workload planner of eval/workloads.py: it is driven by the tool results of each
    request and answers with the next tool calls. Values and steps. */
module ProfileModel {
  import opened Wrappers

  datatype Kind = Read | LargeRead | Page | Edit | PostRead

  /** The four required evidence files, and the long one. */
  datatype Path = PublicApi | Implementation | TestPublicApi | EarlyConstraint | Evidence

  const REQUIRED := {PublicApi, Implementation, TestPublicApi, EarlyConstraint}
  const REREAD := {TestPublicApi, Implementation}

  /** `profile-<kind>-<index>`, or an id this provider never makes. */
  datatype CallId = Id(kind: Kind, index: nat) | Foreign(name: string)

  datatype Arguments = File(path: Path) | Slice(ref: string, offset: int, limit: int) | Replace(before: string, after: string)

  datatype Call = Call(index: nat, kind: Kind, arguments: Arguments)

  /** A result that was kept outside the transcript. */
  datatype External = External(ref: string, size: Option<int>)

  /** What a page's content says, when it is a JSON object. */
  datatype PageInfo = PageInfo(nextOffset: Option<int>, eof: bool)

  datatype ToolResult = ToolResult(id: CallId, isError: bool, content: string, external: Option<External>, page: Option<PageInfo>)

  /** The route seed, the order it gives to paths, and the two functions of a file's content. */
  datatype Config = Config(seed: int, order: set<Path> -> seq<Path>, decode: string -> string, derive: string -> Option<(string, string)>)

  const READ_BATCH_SIZES := [2, 3, 1, 4]
  const PAGE_LIMITS := [64 * 1024, 60 * 1024, 64 * 1024, 48 * 1024]

  function BatchSize(n: int): nat {
    READ_BATCH_SIZES[n % 4]
  }

  function PageLimit(n: int): (limit: int)
    ensures limit > 0
  {
    PAGE_LIMITS[n % 4]
  }

  datatype Provider = Provider(
    requestIndex: nat,
    callIndex: nat,
    pending: map<CallId, (Kind, Option<Path>)>,
    seen: set<CallId>,
    readPaths: set<Path>,
    readFailures: set<Path>,
    readContents: map<Path, string>,
    largeReadRequested: bool,
    profileRef: Option<string>,
    totalBytes: Option<int>,
    nextOffset: int,
    lastPageOffset: Option<int>,
    pagesFinished: bool,
    pageCalls: nat,
    editAttempted: bool,
    editSucceeded: bool,
    postChangeReads: set<Path>,
    trace: seq<Call>)

  const FRESH := Provider(0, 0, map[], {}, {}, {}, map[], false, None, None, 0, None, false, 0, false, false, {}, [])

  // ----- new calls -----

  function NewCall(p: Provider, kind: Kind, arguments: Arguments, path: Option<Path>): Provider {
    var n := p.callIndex + 1;
    p.(callIndex := n, pending := p.pending[Id(kind, n) := (kind, path)], trace := p.trace + [Call(n, kind, arguments)])
  }

  /** The evidence file changes the kind, for itself and for what follows it. */
  function ReadCalls(p: Provider, paths: seq<Path>, kind: Kind): Provider
    decreases |paths|
  {
    if paths == [] then p
    else
      var k := if paths[0].Evidence? then LargeRead else kind;
      var q := if paths[0].Evidence? then p.(largeReadRequested := true) else p;
      ReadCalls(NewCall(q, k, File(paths[0]), Some(paths[0])), paths[1..], k)
  }

  // ----- results -----

  function NotePath(p: Provider, kind: Kind, path: Path): Provider {
    p.(readPaths := p.readPaths + {path},
       postChangeReads := if kind.PostRead? then p.postChangeReads + {path} else p.postChangeReads)
  }

  function NoteContent(k: Config, p: Provider, path: Path, r: ToolResult): Provider {
    if path.Evidence? then p else p.(readContents := p.readContents[path := k.decode(r.content)])
  }

  function NoteRead(k: Config, p: Provider, kind: Kind, path: Path, r: ToolResult): Provider {
    if r.isError then p.(readFailures := p.readFailures + {path}) else NoteContent(k, NotePath(p, kind, path), path, r)
  }

  /** The reference is taken whether or not the read is an error. */
  function NoteReference(p: Provider, path: Path, r: ToolResult): Provider {
    if path.Evidence? && r.external.Some? then
      p.(profileRef := Some(r.external.value.ref),
         totalBytes := if r.external.value.size.Some? then r.external.value.size else p.totalBytes,
         nextOffset := 0)
    else p
  }

  function ReadResult(k: Config, p: Provider, kind: Kind, path: Path, r: ToolResult): Provider {
    NoteReference(NoteRead(k, p, kind, path, r), path, r)
  }

  /** The second component: whether some page has moved the offset on. */
  function PageResult(p: Provider, observed: bool, page: PageInfo): (Provider, bool) {
    var moves := page.nextOffset.Some? && page.nextOffset.value > p.nextOffset;
    (p.(nextOffset := if moves then page.nextOffset.value else p.nextOffset,
        pagesFinished := p.pagesFinished || page.eof),
     observed || moves)
  }

  function ObserveOne(k: Config, a: (Provider, bool), r: ToolResult): (Provider, bool) {
    if r.id in a.0.seen then a
    else
      var p := a.0.(seen := a.0.seen + {r.id}, pending := a.0.pending - {r.id});
      if r.id !in a.0.pending then (p, a.1)
      else
        var (kind, path) := a.0.pending[r.id];
        match kind
        case Page => if r.isError || r.page.None? then (p, a.1) else PageResult(p, a.1, r.page.value)
        case Edit => (p.(editSucceeded := !r.isError), a.1)
        case _ => (if path.Some? then ReadResult(k, p, kind, path.value, r) else p, a.1)
  }

  function ObserveEach(k: Config, p: Provider, results: seq<ToolResult>): (Provider, bool) {
    if results == [] then (p, false)
    else ObserveOne(k, ObserveEach(k, p, results[..|results| - 1]), results[|results| - 1])
  }

  /** A page that told nothing new is passed over by one step. */
  function SkipPage(k: Config, p: Provider): Provider {
    var step := p.nextOffset + PageLimit(k.seed + p.pageCalls);
    var next := if p.totalBytes.Some? && p.totalBytes.value < step then p.totalBytes.value else step;
    p.(nextOffset := next, pagesFinished := p.pagesFinished || (p.totalBytes.Some? && next >= p.totalBytes.value))
  }

  function Observe(k: Config, p: Provider, results: seq<ToolResult>): Provider {
    var (q, observed) := ObserveEach(k, p, results);
    if !observed && q.profileRef.Some? && !q.pagesFinished && q.lastPageOffset == Some(q.nextOffset) then SkipPage(k, q) else q
  }

  // ----- the plan -----

  function Missing(p: Provider): set<Path> {
    set path | path in REQUIRED && path !in p.readPaths && path !in p.readFailures
  }

  function PostMissing(p: Provider): set<Path> {
    set path | path in REREAD && path !in p.postChangeReads && path !in p.readFailures
  }

  function Batch(k: Config, p: Provider): seq<Path> {
    var paths := k.order(Missing(p));
    var size := BatchSize(k.seed + p.requestIndex - 1);
    if size < |paths| then paths[..size] else paths
  }

  function NextPage(k: Config, p: Provider): Provider
    requires p.profileRef.Some?
  {
    NewCall(p.(pageCalls := p.pageCalls + 1, lastPageOffset := Some(p.nextOffset)),
            Page, Slice(p.profileRef.value, p.nextOffset, PageLimit(k.seed + p.pageCalls)), None)
  }

  function TryEdit(k: Config, p: Provider): Provider {
    var edit := if Implementation in p.readContents then k.derive(p.readContents[Implementation]) else None;
    var q := p.(editAttempted := true);
    if edit.None? then q else NewCall(q, Edit, Replace(edit.value.0, edit.value.1), Some(Implementation))
  }

  function Choose(k: Config, p: Provider): Provider {
    if p.profileRef.Some? && !p.pagesFinished then NextPage(k, p)
    else if Missing(p) != {} then ReadCalls(p, Batch(k, p), Read)
    else if !p.largeReadRequested then ReadCalls(p, [Evidence], Read)
    else if p.editSucceeded then ReadCalls(p, k.order(PostMissing(p)), PostRead)
    else if p.editAttempted then p
    else TryEdit(k, p)
  }

  function Heard(k: Config, p: Provider, results: seq<ToolResult>): Provider {
    var q := Observe(k, p, results);
    q.(requestIndex := q.requestIndex + 1)
  }

  /** One request: the calls it is answered with are what the trace gains. */
  function Plan(k: Config, p: Provider, results: seq<ToolResult>): Provider {
    Choose(k, Heard(k, p, results))
  }

  function Drive(k: Config, p: Provider, requests: seq<seq<ToolResult>>): Provider {
    if requests == [] then p else Plan(k, Drive(k, p, requests[..|requests| - 1]), requests[|requests| - 1])
  }

  predicate RouteComplete(p: Provider) {
    && REQUIRED <= p.readPaths && p.profileRef.Some? && p.pagesFinished && p.editSucceeded && REREAD <= p.postChangeReads
  }

  /** An order lists a set of paths, each once. */
  ghost predicate IsOrder(order: set<Path> -> seq<Path>) {
    forall s: set<Path> ::
      && (forall path | path in order(s) :: path in s)
      && (forall path | path in s :: path in order(s))
      && (forall i, j | 0 <= i < j < |order(s)| :: order(s)[i] != order(s)[j])
  }
}
