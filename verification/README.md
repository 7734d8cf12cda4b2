# A model of the desktop shell's protocols and text readers

This project models the parts of the repository that decide rather than display, and proves what
they promise:

- **The child-process boundary** (`RuntimeModel`, `RuntimeSafety`, `RuntimeFraming`,
  `RuntimePending`, `RuntimeAnswers`, `RuntimeStages`, `BridgeContract`, `PythonRuntime`). One
  Python bridge is owned at a time; requests settle once, each with the answer that was read; output
  is framed into lines; a shutdown asks, terminates and kills in bounded windows. The handlers are
  functions on a record, a class with the source's fields implements each of them, and the theorems
  hold over every run of interleaved events. The continuation of a shutdown is a step of its own, so
  a start may slip between a close event and that continuation.
- **Diff readers** (`DiffHeader`, `ReviewDiff`, `DiffStats`, `DiffExact`, `DiffAgreement`). The
  review reader numbers the lines of a unified diff (the diff utility's "Diff -u or -U Output
  Format" of POSIX.1-2008, as git writes it); the counting reader sums additions and deletions; the
  two agree.
- **Terminal and highlight text** (`TokenStream`, `ProcessLog`, `ProcessRows`, `ProcessSays`). A
  nested token tree is cut into lines; a process log takes back what a carriage return overwrites,
  in rows already shown.
- **Markdown** (`MarkdownLines`, `MarkdownBlocks`, `MarkdownLayout`, `MarkdownInline`,
  `MarkdownWritten`). Lines tile the source, blocks lay out all of its lines, quotes shrink, fenced
  code comes back byte for byte (a subset of section 4.5 of the CommonMark specification), inline
  nodes tile their line, and a construct is read exactly where it is written.
- **JSON values** (`JsonGraph`): a depth-first search with a shared path set decides which object
  graphs are JSON values in the sense of section 3 of RFC 8259.
- **Last-writer protocols** (`SettingsModel`, `SettingsSafety`, `SettingsServed`, `SettingsRetry`,
  `SettingsAsked`, `SettingsPage`; `DiffModel`, `DiffSafety`, `DiffOrder`, `DiffShown`,
  `DiffBegins`, `DiffGivenUp`, `DiffCancel`, `DiffLoss`, `WorkspaceDiffPage`; `PreferenceValues`,
  `PreferenceRoundTrip`, `PreferenceTaken`, `PreferenceAccepted`, `PreferenceModel`,
  `PreferenceSafety`, `PreferenceStore`). Auto-save with revisions and retries, workspace-diff
  results that may come before their own acknowledgement, and the serialized preference file.
- **The offline workload planner** (`ProfileModel`, `ProfileProvider`, `RouteSafety`,
  `RouteEvidence`, `RouteArguments`, `RouteCoverage`, `RouteReading`, `RouteUnread`): driven by tool
  results it reads, pages a long result to its end, edits once, rereads and stops.

Code that updates fields is a class whose methods are proved equal to functions on a record of those
fields and whose `Valid()` is the invariant of all runs, kept by every handler; code that loops is a
method with a loop, proved against a function or a property. What the source promises is then proved
about those functions, over all inputs or all runs.

Seven promises fail for some inputs, and the exact condition is proved. A start during an unfinished
shutdown can make the runtime forget a request (`BridgeContract.StartIsSafeIff`). A line of a diff
with a carriage return inside it is shown as several rows, so the review rows are those of the diff
exactly if no line has one (`ReviewDiff.ReviewRoundTripIff`). The counts of a diff that was cut are
called complete if the cut came right after a line feed (`DiffExact.CutAfterLineFeed`;
`DiffExact.StatsAreExact` has the exact condition). A diff result that comes before its
acknowledgement is lost exactly when a further result of the same owner comes in while those of
three different operations, later than it and not claimed by the summary, wait
(`DiffLoss.LostExactlyBeyondFour`, if no operation that sent a result before it sends one after; for
all results, as a guard on the buffer, `DiffLoss.LostExactlyWhenPushedOut`). A preference write
whose own read fails starts from the defaults and resets everything it does not give, other fields
of the window bounds included, unless that stands at its default already
(`PreferenceSafety.UnreadableLosesUnlessDefault`, and over runs `PreferenceSafety.NeverLostIff`). A
setting whose save the bridge has not applied is missing from the failed entries exactly if that
failure was handled after the page was gone, while no later save had touched it
(`SettingsServed.UnappliedIsListedIffNotDropped`, `SettingsSafety.DroppedIff`). A workload route can
be reported complete though its pages failed (`RouteUnread.CompleteUnread`); it has read the whole
result exactly when no page left a hole up to the next one (`RouteReading.CompleteIsReadIff`), and
that is so if every page is told by the next request (`RouteReading.ToldIsRead`).

What the surroundings are assumed to do is part of the models, in the predicates named `Enabled`: a
process closes after all of its output; a spawned process, a request id and an operation id are new;
the bridge takes saves in the order they were sent and reports success only for a save it has
applied; JSON written and read again is the same value. `JSON.parse` and the decoding of bytes, the
extraction of paths from a diff head, the stripping of escape sequences, the order of evidence
paths, the decoding of numbered files and the derivation of the edit are parameters: any functions,
where the order must list each evidence path exactly once.

## Model

| member | source | states |
|---|---|---|
| RuntimeSafety.OneLiveChild | desktop/src/python-runtime.ts:172-208 | In every reachable state of every run at most one spawned child has not had its close event handled; it is the owned child, and a start changes nothing while it lives. |
| RuntimeSafety.SettledOnce | desktop/src/python-runtime.ts:234-252 | Every accepted request settles at most once, and is pending exactly while it has not settled; an id in the timed-out set has settled by timeout and is never pending. |
| RuntimeSafety.ShutdownContract | desktop/src/python-runtime.ts:267-341 | For every interleaving of shutdown callers: shutdowns never overlap, no signal or window belongs to none, each sends nothing, SIGTERM, or SIGTERM then SIGKILL to the child it captured, waits in at most four windows, and returns normally only if that child's close event was handled. |
| RuntimePending.PendingReleased | desktop/src/python-runtime.ts:494-511 | For every state: nothing stays pending after a malformed line or the answer to an unknown id, wherever it stands in an output or in the last line of a close; after an error of the owned child; after its exit outside a shutdown; and after a close the bridge has not announced. |
| RuntimePending.OutputReleases | desktop/src/python-runtime.ts:360-370 | One such line anywhere among the complete lines of an output is enough, whatever the lines before and after it do. |
| RuntimePending.LineReleases | desktop/src/python-runtime.ts:372-465 | A line releases all requests if it is malformed or answers an id that is neither pending nor timed out; any other settles at most the request it answers. |
| RuntimePending.CloseReleases | desktop/src/python-runtime.ts:513-524 | A close of the owned child releases all requests if the flushed last line leaves the runtime neither stopping nor stopped; otherwise it leaves pending exactly what the flush left, nothing if that line is itself such a line. |
| RuntimeAnswers.SuccessSettles | desktop/src/python-runtime.ts:430-448 | A line that is a response object with type, id, ok true and a result, and nothing else, adds to the log exactly that its pending request is resolved with that very result; for a timed-out id it only forgets the id; for an unknown one the runtime fails. |
| RuntimeAnswers.FailureSettles | desktop/src/python-runtime.ts:449-464 | The same with ok false and an error object: the request is rejected with exactly its kind and its message. |
| RuntimeAnswers.EventIsDelivered | desktop/src/python-runtime.ts:388-401 | An event line delivers its event object as it is, and changes neither state nor requests. |
| RuntimeAnswers.StateIsTaken | desktop/src/python-runtime.ts:403-427 | A state line is announced; "failed" and "stopped" are taken over whatever the state, "ready" only while starting, "stopping" never. |
| RuntimeAnswers.OtherLinesFail | desktop/src/python-runtime.ts:372-386 | Every line of another shape, blank or not JSON: the failure is announced once, each pending request is rejected as malformed, in order, and nothing else happens. |
| RuntimeAnswers.ReasonsAreTold | desktop/src/python-runtime.ts:494-524 | What each pending request hears after a timeout, a failed write, an error, an exit, a close and the end of a shutdown. |
| RuntimeStages.StartStarts | desktop/src/python-runtime.ts:172-208 | A start is refused and changes nothing, or a new child is owned, with an empty buffer and no timed-out ids; a spawn that throws is announced as a failure. Which of them, for every state. |
| RuntimeStages.RequestIsAccepted | desktop/src/python-runtime.ts:214-252 | A request is accepted if and only if it is valid, the runtime is ready or starting and its child can be written to; it is then pending, unless the write throws, which settles it at once. Otherwise nothing changes. |
| RuntimeStages.OthersAreIgnored | desktop/src/python-runtime.ts:499-524 | The error, exit and close events of a child that is not owned change nothing at all, and neither does an exit during a shutdown. |
| RuntimeStages.CloseEmptiesBuffer | desktop/src/python-runtime.ts:479-492 | After the close of the owned child no output of it is left in the buffer. |
| RuntimeStages.ClosingChild | desktop/src/python-runtime.ts:283-341 | The whole log of a shutdown whose child closes in the first, second or third wait: its input ends, the signals before that wait are sent, each with a window of its own, every pending request hears it in order, and the child is let go. |
| RuntimeStages.StubbornChild | desktop/src/python-runtime.ts:283-341 | The whole log when neither the bridge answers nor the child ever closes: asked, input ended, SIGTERM, SIGKILL, each after a window; then the runtime has failed, the pending requests hear it, and the child stays owned. |
| RuntimeStages.CannotBeAsked | desktop/src/python-runtime.ts:283-303 | A child without an input is not asked: the shutdown goes on at once. |
| RuntimeStages.NothingToClose | desktop/src/python-runtime.ts:267-282 | A shutdown joins the one under way; without a child it stops at once. |
| RuntimeSafety.PendingReleasedByShutdown | desktop/src/python-runtime.ts:326-340 | No request stays pending once a shutdown has settled, whether it succeeded or failed. |
| RuntimeSafety.StepKeeps | desktop/src/python-runtime.ts:130-151 | Each of the eleven events keeps the ledger, the ownership and the shutdown invariant together. |
| RuntimeSafety.RunKeeps | desktop/src/python-runtime.ts:130-151 | The three invariants hold after every run, for every order of events the surroundings can produce. |
| BridgeContract.GoodBridgeNeverFails | desktop/src/python-runtime.ts:430-464 | Until an error, exit, close or shutdown, a bridge that answers each request it received at most once, with well-formed lines, never drives the runtime to failed, however timeouts, late answers and chunk boundaries interleave; each unanswered id is pending or remembered as timed out. |
| BridgeContract.StartIsSafeIff | desktop/src/python-runtime.ts:326-340 | A start is safe for such a bridge if and only if no shutdown is unfinished when it happens. |
| BridgeContract.OverlapLoses | desktop/src/python-runtime.ts:326-340 | The failing half, for every state with an unfinished shutdown and a start: a run in which the old shutdown makes the runtime forget a request the new bridge has received. |
| BridgeContract.OverlapIsReachable | desktop/src/python-runtime.ts:513-524 | Such a state is reached from the beginning in four events, when the bridge announces "stopped" during its own shutdown. |
| RuntimeFraming.LifeLines | desktop/src/python-runtime.ts:360-370 | From start to close, consumeLine is handed exactly the newline-separated pieces of the concatenated output, one trailing carriage return removed from each and an empty last piece dropped, whatever the chunk boundaries. |
| RuntimeFraming.DrainHands | desktop/src/python-runtime.ts:360-370 | Draining hands on all complete lines of the buffer, in order, and leaves the unfinished rest. |
| RuntimeFraming.FlushHands | desktop/src/python-runtime.ts:479-485 | At the close event the rest of the buffer is handed on as one more line, unless it is empty. |
| RuntimeFraming.OneReturnIsStripped | desktop/src/python-runtime.ts:360-370 | One carriage return at the end of a line is taken away, and nothing else. |
| PythonRuntimeClass.PythonRuntime.ConsumeLine | desktop/src/python-runtime.ts:372-465 | One line: an event, a state line, a response correlated with pending or timed-out ids, or malformed output; the new state is that of the model step. |
| PythonRuntimeClass.PythonRuntime.ConsumeStdout | desktop/src/python-runtime.ts:360-370 | The loop over the buffer: each line feed cuts a line off, consumed in order; the new state is that of the model step. Keeps the invariant: at most one live child, requests settled once, one shutdown at a time. |
| PythonRuntimeClass.PythonRuntime.FlushAndResetTransportBuffers | desktop/src/python-runtime.ts:479-492 | The remaining output is consumed as a last line and the buffer is emptied. |
| PythonRuntimeClass.PythonRuntime.FailMalformedOutput | desktop/src/python-runtime.ts:494-497 | The runtime fails and all pending requests are rejected. |
| PythonRuntimeClass.PythonRuntime.HandleProcessError | desktop/src/python-runtime.ts:499-503 | Ignored for a child that is not owned; otherwise fails, except while stopping, and rejects all. Keeps the invariant: at most one live child, requests settled once, one shutdown at a time. |
| PythonRuntimeClass.PythonRuntime.HandleProcessExit | desktop/src/python-runtime.ts:505-511 | Ignored for a child that is not owned and while stopping; otherwise fails and rejects all. Keeps the invariant: at most one live child, requests settled once, one shutdown at a time. |
| PythonRuntimeClass.PythonRuntime.HandleProcessClose | desktop/src/python-runtime.ts:513-524 | Flushes, confirms the close, fails an unexpected one, resolves the exit promise, and lets the child go unless a shutdown is under way. Keeps the invariant: at most one live child, requests settled once, one shutdown at a time. |
| PythonRuntimeClass.PythonRuntime.Start | desktop/src/python-runtime.ts:172-208 | Refused while a child is owned; a spawn that throws leaves no child and a failed runtime; otherwise the new child is adopted with its own exit promise. Keeps the invariant: at most one live child, requests settled once, one shutdown at a time. |
| PythonRuntimeClass.PythonRuntime.RequestInternal | desktop/src/python-runtime.ts:214-252 | Refused for a wrong state, a missing input pipe or a bad request; otherwise the id becomes pending, and a write that throws settles it at once. |
| PythonRuntimeClass.PythonRuntime.TimeoutFires | desktop/src/python-runtime.ts:234-239 | A pending id is rejected and remembered as timed out. Keeps the invariant: at most one live child, requests settled once, one shutdown at a time. |
| PythonRuntimeClass.PythonRuntime.CloseChild | desktop/src/python-runtime.ts:267-299 | Joins a shutdown under way, returns at once without a child, or begins a shutdown up to its first suspension. Keeps the invariant: at most one live child, requests settled once, one shutdown at a time. |
| PythonRuntimeClass.PythonRuntime.ResumeShutdown | desktop/src/python-runtime.ts:300-341 | Each continuation: wait, SIGTERM, SIGKILL, or the end, according to what the race answered. Keeps the invariant: at most one live child, requests settled once, one shutdown at a time. |
| PythonRuntimeClass.PythonRuntime.RejectAll | desktop/src/python-runtime.ts:557-564 | The loop over the pending requests: all are rejected with the reason, and the timed-out ids are forgotten. |
| PythonRuntimeClass.PythonRuntime.Handle | desktop/src/python-runtime.ts:130-151 | Every event, dispatched to its handler, is the step of the model. Keeps the invariant: at most one live child, requests settled once, one shutdown at a time. |
| DiffHeader.ReadPrintedHeader | desktop/src/renderer/DocumentPreviewPanel.tsx:63-67 | A printed hunk header of any numbers, with counts of one left out, is read back by both readers to the same four numbers. |
| DiffHeader.RedactionExtends | desktop/src/renderer/ChatTimeline.tsx:272-275 | What the counting reader takes for a hunk header the review reader reads to the same four numbers; and the review reader alone reads a line if and only if it is a hunk header with a redacted count. |
| ReviewDiff.ParseUnifiedDiffLines | desktop/src/renderer/DocumentPreviewPanel.tsx:59-90 | The loop with its two counters yields the rows of the specification function, for every text. |
| ReviewDiff.RowsRestoreLines | desktop/src/renderer/DocumentPreviewPanel.tsx:59-90 | For every text: one row a line, and the row's prefix and text are the line. |
| ReviewDiff.ReviewRoundTrip | desktop/src/renderer/DocumentPreviewPanel.tsx:59-90 | Any edit script, printed as a unified diff after any preamble and read back, gives the rows of its hunks, and each row's numbers point at its own lines of the old and new file. |
| ReviewDiff.ReviewRoundTripIff | desktop/src/renderer/DocumentPreviewPanel.tsx:59-90 | For every script of single lines: what is printed is read back as the rows of its hunks if and only if no line, heading or preamble line holds a carriage return but at its end. |
| ReviewDiff.RowsAreCounted | desktop/src/renderer/DocumentPreviewPanel.tsx:62 | Every text of lines has one row a line, one for the end, and one more for each carriage return inside a line. |
| ReviewDiff.BodyNumbers | desktop/src/renderer/DocumentPreviewPanel.tsx:70-85 | Inside a hunk the old and the new numbers are consecutive and complete. |
| ReviewDiff.HunksIndex | desktop/src/renderer/DocumentPreviewPanel.tsx:63-88 | Hunks whose headers point at their own lines give rows that index both files correctly. |
| DiffStats.ParseWorkspaceDiffStats | desktop/src/renderer/ChatTimeline.tsx:238-297 | The loop over counters and the hunk record yields the counts of the specification function, for every text. |
| DiffStats.FlushInto | desktop/src/renderer/ChatTimeline.tsx:245-254 | Each path of a section gets the section's counts added, and stays complete only if both are. |
| DiffStats.CutNeverRaises | desktop/src/renderer/ChatTimeline.tsx:238-297 | Cutting any text at any character never raises the additions or deletions of any path. |
| DiffExact.StatsAreExact | desktop/src/renderer/ChatTimeline.tsx:238-297 | For every text at all: a path has counts if and only if a head line names it; they are exactly the added and removed lines inside the open hunks of its sections, a hunk being open while its header's counts are not used up and every line fits; and they are called complete if and only if no line of these sections is of a binary file or a merge and the text does not end inside a hunk of the path. |
| DiffExact.CutAfterLineFeed | desktop/src/renderer/ChatTimeline.tsx:294 | A text that ends in a line feed is never said to end inside a hunk, so a cut there goes unnoticed. |
| DiffAgreement.ReadersAgree | desktop/src/renderer/DocumentPreviewPanel.tsx:115-133 | For every well-formed git diff of any number of files: splitDiffFiles finds the files one by one; in each, the added and removed review rows are those printed; and for every path the counted additions and deletions are the sums of those rows, also for lines that look like file headers. |
| DiffAgreement.CutFindsSections | desktop/src/renderer/DocumentPreviewPanel.tsx:115-133 | The lines of a printed diff are cut exactly at its sections. |
| DiffAgreement.SectionCounts | desktop/src/renderer/ChatTimeline.tsx:255-293 | Counting one printed section adds exactly its added and removed lines, whatever those lines look like. |
| DiffAgreement.HunkRowCounts | desktop/src/renderer/DocumentPreviewPanel.tsx:63-88 | The rows of printed hunks hold as many added and removed rows as were printed. |
| TokenStream.SplitTokenStream | desktop/src/renderer/DocumentPreviewPanel.tsx:209-237 | Cut into lines, a token tree shows what it showed: under every enclosing stack of tokens, the characters of the lines with their own stacks of types and aliases are those of the stream, split at the line feeds. |
| TokenStream.LineBuffer.Append | desktop/src/renderer/DocumentPreviewPanel.tsx:211-234 | Appending a value of any shape continues the last line with the first line of the value and adds its further lines. |
| TokenStream.LineBuffer.AppendToken | desktop/src/renderer/DocumentPreviewPanel.tsx:221-231 | A token on one line is pushed as it is; otherwise every line of its content is wrapped in the token again. |
| TokenStream.LineBuffer.AppendText | desktop/src/renderer/DocumentPreviewPanel.tsx:212-220 | A text continues the last line with its first piece and opens a line for each further one. |
| TokenStream.LinesKeepText | desktop/src/renderer/DocumentPreviewPanel.tsx:209-237 | The lines joined with line feeds are the original text, and there is one line more than there are line feeds. |
| TokenStream.CutConcat | desktop/src/renderer/DocumentPreviewPanel.tsx:209-237 | Cutting a concatenation is cutting the parts and gluing the two lines at the seam. |
| ProcessLog.ScanRenders | desktop/src/renderer/ChatTimeline.tsx:55-87 | The screen kept one character at a time is the batch rendering: per line, trailing carriage returns dropped, then what follows the last remaining one. |
| ProcessLog.StreamProjection.Append | desktop/src/renderer/ChatTimeline.tsx:55-87 | Appending text advances the stream's screen by exactly these characters, writing only rows of this stream, although earlier rows are cut in place. |
| ProcessLog.StreamProjection.ClearCurrentLine | desktop/src/renderer/ChatTimeline.tsx:56-59 | Every part's row is cut back to where the line began in it; the ended lines stay. |
| ProcessLog.CutBack | desktop/src/renderer/ChatTimeline.tsx:56-59 | The loop over the parts cuts each row back and leaves rows without a part unchanged. |
| ProcessRows.ProjectProcessLogRows | desktop/src/renderer/ChatTimeline.tsx:89-111 | One row an entry, in order, under its sequence number; rows that are no output say their own plain text; and for each stream its rows, row by row, hold the batch rendering of what the stream was fed: without escape sequences, of all its printable text. |
| ProcessRows.Deliver | desktop/src/renderer/ChatTimeline.tsx:100-107 | An output entry changes only the projection and the rows of its own stream. |
| ProcessRows.RowsShowOutput | desktop/src/renderer/ChatTimeline.tsx:89-111 | For output without escape sequences, however it is split into entries and interleaved with other streams: a stream's rows together are the batch rendering of all its printable text. |
| ProcessRows.CutsDoNotMatter | desktop/src/renderer/ChatTimeline.tsx:89-111 | The rendered text does not depend on where the output was cut into rows. |
| ProcessRows.InputIsPrintable | desktop/src/renderer/ChatTimeline.tsx:45-53 | Without escape sequences the differences of the growing plain text add up to the printable text of the whole output. |
| ProcessSays.KeptIff | desktop/src/renderer/ChatTimeline.tsx:55-87 | What is kept of a line, if and only if: the line is something that ends in a carriage return, or nothing, then what is kept, which has none, then carriage returns alone. |
| ProcessSays.LineByLine | desktop/src/renderer/ChatTimeline.tsx:55-87 | The rendering goes line by line, and every line feed stays. |
| ProcessSays.OutputIsWritten | desktop/src/renderer/ChatTimeline.tsx:93-101 | The output of a stream is all texts of its entries, in order; status entries are no output. |
| ProcessSays.OthersSay | desktop/src/renderer/ChatTimeline.tsx:96-98 | A status entry says its text, an entry without text its stream and its state. |
| JsonGraph.IsJsonValue | desktop/src/desktop-api.ts:224-238 | For every finite heap, cyclic or not, the search ends and answers true exactly if only JSON nodes can be reached and none of them lies on a cycle. |
| JsonGraph.Search.IsJsonValue | desktop/src/desktop-api.ts:224-242 | With a path already open: true exactly if every path from the value avoids the open one, repeats nothing and ends in a JSON node; the path set is left as it was found, also on refusal. |
| JsonGraph.Search.Every | desktop/src/desktop-api.ts:231-236 | Stops at the first refusal and leaves the path set as it was found. |
| JsonGraph.CleanStep | desktop/src/desktop-api.ts:228-236 | A node is clean exactly if it is off the path, is a JSON container, and all its children are clean with it on the path. |
| JsonGraph.CleanIsJson | desktop/src/desktop-api.ts:224-242 | With nothing on the path, what the search decides is that the reachable part is acyclic and JSON. |
| JsonGraph.SharedIsJson | desktop/src/desktop-api.ts:239-240 | Shared sub-objects are allowed: a heap whose edges all lead downwards is JSON from every node. |
| SettingsSafety.SettledFields | desktop/src/renderer/App.tsx:2944-3019 | For every order of saves, answers, failures and retries: when no save is pending on a mounted page, each field either has a failed entry with exactly the newest value at its newest revision, or has the newest value stored; and the saving flag is off. |
| SettingsSafety.FailedIsNewest | desktop/src/renderer/App.tsx:2992-3005 | At every moment of every run a failed entry holds the newest value of its field at its newest revision: no older failure reappears over a newer write. |
| SettingsSafety.RetryResendsNewest | desktop/src/renderer/App.tsx:3021-3027 | A retry sends one field, with its newest value, and changes no newest value. |
| SettingsRetry.RetryRetries | desktop/src/renderer/App.tsx:3021-3027 | From every state of the protocol: a retry followed by one round for each entry, those of earlier retries included, leaves for every field that had failed, and for no other, a waiting save of it alone with its newest value at its newest revision, in the order of the entries, and no failed entry. |
| SettingsAsked.SettledAsAsked | desktop/src/renderer/App.tsx:2944-3019 | In terms of the events alone, over every run: when no save is pending on a mounted page, each field that saves itself and was ever asked for is stored with the last value asked for it, or its entry holds exactly that value. |
| SettingsAsked.OnlySettingsAreListed | desktop/src/renderer/App.tsx:2946-2960 | Nothing else ever gets an entry: no search key, no field of a provider or a model; and an entry holds the last value asked for. |
| SettingsAsked.GroupsHaveNoRevisions | desktop/src/renderer/App.tsx:2946-2952 | A save that touches a provider, a model or the name of one has no revisions and leaves all entries as they were. |
| SettingsAsked.SaveGoesThrough | desktop/src/renderer/App.tsx:2965-2980 | At rest, a save of any fields goes through: it is stored, its entries are gone and no others, its answer is shown, and nothing is being saved any more. |
| SettingsAsked.RefusedIsListed | desktop/src/renderer/App.tsx:2981-3007 | A save that is refused leaves an entry for each of its fields that has a revision, with the value asked for, and for no other; stored and shown is what was. |
| SettingsAsked.GoneShowsNothing | desktop/src/renderer/App.tsx:2972-2982 | Once the page is gone nothing new is shown and no entry is added. |
| SettingsAsked.StoredIsAccepted | desktop/src/renderer/App.tsx:2965-2966 | What the bridge stores is exactly the requests it accepted, in the order in which it accepted them. |
| SettingsSafety.ShownIsLast | desktop/src/renderer/App.tsx:2972-2973 | The configuration of an answer is shown only if no later save is pending. |
| SettingsSafety.UnmountLoses | desktop/src/renderer/App.tsx:2981-2982 | Such a field can be reached: a failure after the page is gone leaves neither an entry nor a stored value. |
| SettingsServed.UnappliedIsListedIffNotDropped | desktop/src/renderer/App.tsx:2965-3019 | When no save is pending, on a mounted page or after it: a field whose newest save the bridge has not applied is listed as failed if and only if it was not dropped; and what the bridge has applied of newest saves is stored. Applied means that very save, not an older one of an equal value. |
| SettingsServed.StepServes | desktop/src/renderer/App.tsx:2944-3027 | Every step keeps it that each field's newest save is pending, listed, dropped or applied, and that the bridge takes the saves in the order of their numbers, each once. |
| SettingsSafety.DroppedIff | desktop/src/renderer/App.tsx:2981-2982 | A field is dropped exactly by a failure handled after the unmount while the failed save is still its newest, and stays so until it is saved again. |
| SettingsSafety.StepKeeps | desktop/src/renderer/App.tsx:2944-3027 | Every step keeps the invariant that ties tickets, revisions, failed entries, the bridge and the newest values. |
| SettingsPage.SettingsSaver.SaveSettings | desktop/src/renderer/App.tsx:2944-2964 | The synchronous part of a save is the step of the model. Keeps the invariant, and leaves no entry that is older than its field's newest value. |
| SettingsPage.SettingsSaver.Claim | desktop/src/renderer/App.tsx:2954-2959 | The loop gives each field a new revision and drops its failed entry. |
| SettingsPage.SettingsSaver.Answered | desktop/src/renderer/App.tsx:2965-2980 | The continuation after a success is the step of the model. Keeps the invariant, and leaves no entry that is older than its field's newest value. |
| SettingsPage.SettingsSaver.Rejected | desktop/src/renderer/App.tsx:2981-3016 | The continuation after a failure is the step of the model. Keeps the invariant, and leaves no entry that is older than its field's newest value. |
| SettingsPage.SettingsSaver.Remember | desktop/src/renderer/App.tsx:2992-3005 | The loop leaves one patch for each field no later save has touched. |
| SettingsPage.SettingsSaver.RetryRound | desktop/src/renderer/App.tsx:3021-3027 | An entry is sent again only if it is still its field's entry at its revision. Keeps the invariant, and leaves no entry that is older than its field's newest value. |
| DiffSafety.TabShowsOwnResult | desktop/src/renderer/App.tsx:666-696 | In every run a tab that shows a result shows one that arrived for the operation named to the call that last opened it, with its own owner's key. |
| DiffSafety.SummaryShowsOwnResult | desktop/src/renderer/App.tsx:698-728 | The same for the summary and its last refresh. |
| DiffSafety.OnlyLastCallShows | desktop/src/renderer/App.tsx:730-759 | Whatever the step, it shows at most one result, and only for the last call of a side whose owner the page shows. |
| DiffSafety.AcceptReviewKeeps | desktop/src/renderer/App.tsx:666-696 | Accepting a result for the review tab keeps the invariant, and shows it only for the last call of the tab, of the owner the page shows and with that owner's key. |
| DiffSafety.AcceptSummaryKeeps | desktop/src/renderer/App.tsx:698-728 | The same for the summary. |
| DiffSafety.ShownOnce | desktop/src/renderer/App.tsx:730-759 | No operation's result is shown twice: not by both contexts, and not by one of them again. |
| DiffSafety.StepKeeps | desktop/src/renderer/App.tsx:666-813 | Every step keeps the invariant that ties contexts, frames, buffers, named operations and views. |
| DiffOrder.OrderDoesNotMatter | desktop/src/renderer/App.tsx:2726-2775 | If at most four results of the same owner arrive while the kickoff is unanswered, the tab ends the same whichever of answer and event comes first, for any steps of the summary in between. |
| DiffOrder.EventThenAnswer | desktop/src/renderer/App.tsx:2754-2767 | The event first: once the answer names the operation, the tab shows the event's outcome. |
| DiffOrder.AnswerThenEvent | desktop/src/renderer/App.tsx:2764-2767 | The answer first: the same outcome, with no bound on other results. |
| DiffShown.EventThenAnswerSays | desktop/src/renderer/App.tsx:666-696 | Both arrival orders with the results written out. The event first: a completed diff is shown as that diff, a completed one without a diff and a failed one as failed, a cancelled and a stale one as such. |
| DiffShown.AnswerThenEventSays | desktop/src/renderer/App.tsx:730-741 | The answer first: the same, with no bound on other results. |
| DiffShown.RefusalSaysFailed | desktop/src/renderer/App.tsx:2757-2774 | A kickoff that throws, or whose answer names no operation, another owner or another state, leaves the tab failed and nothing awaited. |
| DiffShown.ForeignSaysFailed | desktop/src/renderer/App.tsx:677-682 | A result of the tab's operation for another owner leaves it failed. |
| DiffShown.SummaryEventThenAnswer | desktop/src/renderer/App.tsx:698-728 | The summary's own arrival theorem, the event first with at most four results of the owner waiting: a completed diff is shown as that diff, everything else as failed. |
| DiffShown.SummaryAnswerThenEvent | desktop/src/renderer/App.tsx:792-812 | The answer first: the same, with no bound. |
| DiffCancel.SupersededIsCancelled | desktop/src/renderer/App.tsx:2689-2756 | In every run each operation named to a call is awaited by the current call, has sent its result, was refused by the current call, or has been cancelled; none that is awaited is cancelled. |
| DiffBegins.OpenBegins | desktop/src/renderer/App.tsx:2726-2747 | From every page with an owner: the tab is opened by a new call with nothing buffered and waits, the other tabs stay, and the operation awaited before, if any, is cancelled; the call may be answered at once exactly if there was none. |
| DiffBegins.RefreshBegins | desktop/src/renderer/App.tsx:773-790 | The same for the summary. |
| DiffBegins.AsksIffCurrent | desktop/src/renderer/App.tsx:2745-2750 | After the cancellation a call asks if and only if it is still the current one and its owner is still shown; nothing else changes. |
| DiffBegins.SupersededNeverAsks | desktop/src/renderer/App.tsx:2748-2750 | A call superseded while it waits for the cancellation never asks the backend for anything, in any run. |
| DiffGivenUp.ClosedStaysClosed | desktop/src/renderer/App.tsx:2696-2704 | A closed tab stays closed until it is opened again, whatever answers and results come; the other tabs stay as they are, and its own diff, if awaited, is given up. |
| DiffGivenUp.GivenUpIsSilent | desktop/src/renderer/App.tsx:2689-2694 | Once the diff under review is given up no answer and no result changes any tab until a diff is opened, in any run. |
| DiffGivenUp.GivenUpSummaryIsSilent | desktop/src/renderer/App.tsx:761-771 | The same for the summary. |
| DiffGivenUp.OnlyOwnIsShown | desktop/src/renderer/App.tsx:3120-3142 | Once another owner is shown and the two effects have run, every tab and the summary belong to that owner, until the owner changes again, in any run. |
| DiffGivenUp.OwnStays | desktop/src/renderer/App.tsx:3120-3142 | The effects take away nothing that is the owner's, and leave awaited only what is. |
| DiffGivenUp.TakenIsForgotten | desktop/src/renderer/App.tsx:684-685 | A result that is taken up is buffered no more, for the summary on neither side. |
| DiffGivenUp.UnknownIsIgnored | desktop/src/renderer/App.tsx:683-684 | A result in an unknown state leaves its call waiting and shows nothing. |
| DiffLoss.LostExactlyWhenPushedOut | desktop/src/renderer/App.tsx:748-752 | For every calm run between kickoff and answer, with the summary in any state and operations that repeat: the result is lost, and the tab stays under review, if and only if some further result of the owner came into the full buffer whose oldest it was; otherwise the tab shows it. |
| DiffLoss.LostExactlyBeyondFour | desktop/src/renderer/App.tsx:748-752 | Counted from the events, where no operation that sent a result before it sends one after: lost if and only if a result came in while those of three different operations, later than it and not claimed by the summary, were waiting. |
| DiffLoss.PushedOutIsCrowded | desktop/src/renderer/App.tsx:730-759 | The guard on the buffer and the count of different later operations say the same. |
| DiffLoss.LossIsReachable | desktop/src/renderer/App.tsx:2726-2775 | For every owner, with the summary asking too: a run from the start in which the result comes, four others follow, and the answer that names it leaves the tab under review. |
| DiffLoss.KeepsLastFour | desktop/src/renderer/App.tsx:748-752 | The buffer holds the last four of the results for different operations. |
| WorkspaceDiffPage.DiffPage.ReceiveWorkspaceDiffEvent | desktop/src/renderer/App.tsx:730-759 | A result goes to the context it is named to, or into the buffers of those that wait. Keeps the invariant of all runs, and shows at most one result, only for the last call of its side. |
| WorkspaceDiffPage.DiffPage.OpenWorkspaceDiff | desktop/src/renderer/App.tsx:2726-2747 | Opening up to the first await: a new current context, an empty buffer, a tab under review, the operation before cancelled. Keeps the invariant of all runs, and shows no result. |
| WorkspaceDiffPage.DiffPage.AfterCancel | desktop/src/renderer/App.tsx:2744-2749 | After the cancellation the kickoff is sent, unless superseded. Keeps the invariant of all runs, and shows no result. |
| WorkspaceDiffPage.DiffPage.AfterKickoff | desktop/src/renderer/App.tsx:2751-2774 | The kickoff's answer, or its failure, is the step of the model. Keeps the invariant of all runs, and shows at most one result, only for the last call of its side. |
| WorkspaceDiffPage.DiffPage.RefreshWorkspaceDiffSummary | desktop/src/renderer/App.tsx:773-790 | Refreshing the summary up to the first await is the step of the model. Keeps the invariant of all runs, and shows no result. |
| WorkspaceDiffPage.DiffPage.AfterSummaryKickoff | desktop/src/renderer/App.tsx:792-812 | The summary's kickoff answer, or its failure, is the step of the model. Keeps the invariant of all runs, and shows at most one result, only for the last call of its side. |
| WorkspaceDiffPage.DiffPage.CancelWorkspaceDiff | desktop/src/renderer/App.tsx:2689-2694 | Cancels the current review operation and empties its buffer. Keeps the invariant of all runs, and shows no result. |
| WorkspaceDiffPage.DiffPage.CancelWorkspaceDiffSummary | desktop/src/renderer/App.tsx:761-771 | Cancels the summary's operation, empties its buffer and moves its number on. Keeps the invariant of all runs, and shows no result. |
| RouteSafety.RouteIsGood | eval/workloads.py:657-829 | If every call is answered by the next request, old results may repeat and offsets stay within the reported size, the trace is: each evidence file once, then one large read, then pages at strictly increasing offsets, then at most one edit, then each of the two files once more. |
| RouteSafety.RouteIsShort | eval/workloads.py:761-829 | Such a trace has at most four reads, one large read, one page more than the result has bytes, one edit and two reads: size plus nine calls. |
| RouteSafety.RouteStops | eval/workloads.py:761-829 | After that many requests and one more, no request is answered with a call any more. |
| RouteSafety.OneEdit | eval/workloads.py:807-829 | At most one edit is made, whatever the results are. |
| RouteSafety.HeardIsReady | eval/workloads.py:679-739 | Hearing the results of all pending calls leaves nothing pending, every file asked for answered, and the offset beyond every page requested, unless the pages are over. |
| RouteSafety.ChosenIsPlanned | eval/workloads.py:761-829 | Every choice of calls keeps the route good and the stage of the work consistent. |
| RouteEvidence.CompleteIsBacked | eval/workloads.py:837-845 | A route reported complete has had, among its calls and the results given, a successful read of every required file, a long result kept outside, a successful edit and a successful reread of both files, whatever results were given. |
| RouteArguments.CallsAreDerived | eval/workloads.py:765-829 | In every run with any results: the texts of every edit are the pair derived, in that order, from the last successful reading of the implementation among the results given before it; every page carries the reference of the last long result given before it, and the length whose turn it is. |
| RouteArguments.RoundsInTurn | eval/workloads.py:778-790 | A round of reads asks for two, three, one or four files in turn, or for all that are missing, each once and none but missing ones. |
| RouteArguments.NextPageOffset | eval/workloads.py:707-739 | With one page out, whatever results come: the next page is asked for where the page's answer says; if that told nothing, one further by the length whose turn it is, but not beyond the size; the pages are over exactly if the answer said so or the size is reached. |
| RouteArguments.SizeIsReported | eval/workloads.py:694-706 | In every run the size known is the last one reported with a long result, whatever the results were. |
| RouteReading.CompleteIsReadIff | eval/workloads.py:704-739 | The page phase, for any results at all, told at once, late or never: a complete route has read every byte of the long result if and only if for every page asked for below its reported size, that page or one before it was told, sometime, up to where the next page was asked for or the result ends. |
| RouteReading.ToldIsRead | eval/workloads.py:704-739 | For any results: if every page asked for below the reported size is answered by the next request with a success that moves the offset on or is the last, a complete route has read all of the long result. |
| RouteReading.ReadIffTold | eval/workloads.py:721-739 | If no page is told later than by the next request, the other way round as well: all was read only if every such page was so answered, none of them skipped. |
| RouteReading.AnsweredIsNotLate | eval/workloads.py:704-739 | If every call is answered by the next request, no page is told later than that. |
| RouteReading.RunAsks | eval/workloads.py:761-777 | In every run the calls are numbered one by one, and the pages are asked for at rising offsets, the first at zero. |
| RouteReading.SeenIsGiven | eval/workloads.py:680-683 | What the planner counts as seen, so that only the first result under an id is heard, is what has had a result before. |
| RouteUnread.CompleteUnread | eval/workloads.py:721-739 | For every order of paths, every derivable edit and every size there is a run, each call answered by the next request, that is reported complete though every page was an error and no byte was read at any time. |
| ProfileProvider.ProfileWorkloadProvider.PlanCalls | eval/workloads.py:761-829 | One request: the calls returned are what the trace gains, and the new state is that of the model step. What is recorded stays backed by calls and results, at most one edit was made, and a good route stays good if every call was answered. |
| ProfileProvider.ProfileWorkloadProvider.ObserveToolResults | eval/workloads.py:679-739 | The loop over the results and the skipped page are the step of the model. |
| ProfileProvider.ProfileWorkloadProvider.ObserveResult | eval/workloads.py:683-720 | One result, ignored if already seen, is taken by the kind of its call. |
| ProfileProvider.ProfileWorkloadProvider.MakeReadCalls | eval/workloads.py:744-759 | The loop makes one call a path, and the evidence file turns the kind to the large read. |
| MarkdownLines.SplitMarkdownLines | desktop/src/renderer/safe-markdown.tsx:292-303 | The lines tile the source: no line holds a break, each is followed by one break or the end, they leave no gap, and together they are the source byte for byte. |
| MarkdownBlocks.RenderMarkdownBlocks | desktop/src/renderer/safe-markdown.tsx:333-430 | Ends for every source, and yields the blocks of the specification function. |
| MarkdownBlocks.QuoteShrinks | desktop/src/renderer/safe-markdown.tsx:391-399 | Quoted lines, unquoted and joined, are shorter than the stretch they came from. |
| MarkdownBlocks.ReadBlock | desktop/src/renderer/safe-markdown.tsx:339-428 | One round of the loop reads the block the specification names and goes on after it. |
| MarkdownLayout.BlocksAreTheLayout | desktop/src/renderer/safe-markdown.tsx:333-430 | For every source there is one layout, and the blocks are it: every line that is not blank stands in exactly one block, in order; each block holds its lines whole, of its own kind and as far as it can go; and a quote shows the layout of its unquoted lines. |
| MarkdownLayout.OpensIff | desktop/src/renderer/safe-markdown.tsx:345-358 | A line opens a fence if and only if, after white space, it begins with three or more backticks or tildes; all of them are the marker and the rest is the info. |
| MarkdownLayout.ClosesIff | desktop/src/renderer/safe-markdown.tsx:359-366 | A line closes a fence if and only if it holds at least as many of the same mark and otherwise white space alone. |
| MarkdownLayout.QuoteMark | desktop/src/renderer/safe-markdown.tsx:391-399 | Of a quoted line the mark and at most one space after it are taken away. |
| MarkdownLayout.KindIs | desktop/src/renderer/safe-markdown.tsx:341-428 | Which kind of block a line begins, for every line and grammar: a fence before a heading, before a table (a bar in the line and a divider in the next), before a quote, before a list, and a paragraph otherwise. |
| MarkdownLayout.QuoteIff | desktop/src/renderer/safe-markdown.tsx:391 | A line is quoted if and only if, after white space, it begins with the mark. |
| MarkdownBlocks.FenceRoundTrip | desktop/src/renderer/safe-markdown.tsx:345-369 | Code that ends in a line break and has no closing-fence line comes out of a fence of either character, any length and any info as one block, byte for byte, CRLF and trailing spaces included. |
| MarkdownBlocks.OpenFenceTakesRest | desktop/src/renderer/safe-markdown.tsx:359-369 | Without a closing line the code is the whole rest of the source, whatever it ends in. |
| MarkdownInline.RenderInline | desktop/src/renderer/safe-markdown.tsx:230-263 | The nodes tile the source: written out they are the source again; every link's raw target has balanced unescaped parentheses; and they are the nodes of the first-match rule. |
| MarkdownInline.NextInlineToken | desktop/src/renderer/safe-markdown.tsx:205-228 | The next token begins at the first index at which any construct matches; none means that none matches anywhere. |
| MarkdownInline.ParseMarkdownLink | desktop/src/renderer/safe-markdown.tsx:172-203 | The scan with its depth counter finds the link the specification finds. |
| MarkdownInline.TargetIsBalanced | desktop/src/renderer/safe-markdown.tsx:173-193 | A target ends at a closing parenthesis if and only if everything between is balanced, escapes not counted. |
| MarkdownInline.NodeIsWritten | desktop/src/renderer/safe-markdown.tsx:241-258 | A node, written with its delimiters, is exactly the characters of its token. |
| MarkdownWritten.ReadIffWritten | desktop/src/renderer/safe-markdown.tsx:172-228 | At every place of every text a link, code, strong or emphasis is read if and only if it is written there and its text is such as it may be: no bracket in a label, a balanced target, no backtick in code, no two asterisks before the end of strong text, none in emphasis. |
| PreferenceRoundTrip.ValidateIsIdempotent | desktop/src/desktop-preferences.ts:240-263 | What validateDocument returns for a value of any shape, written as JSON and validated again, is returned unchanged. |
| PreferenceRoundTrip.ValidatedOk | desktop/src/desktop-preferences.ts:240-263 | Every accepted document is normalized: bounds, widths, lengths, distinct pinned sessions. |
| PreferenceRoundTrip.NormalizeBack | desktop/src/desktop-preferences.ts:76-238 | Every normalized preference survives being written and read, for each of the thirteen validators. |
| PreferenceTaken.GivenIsKept | desktop/src/desktop-preferences.ts:240-263 | In an accepted document a preference that is not given stands at its default; theme, language, panel mode, aliases, pinned and expanded projects and the selection are exactly what was given. |
| PreferenceTaken.WidthIsNearest | desktop/src/desktop-preferences.ts:108-114 | A width that is given is a safe whole number and is brought to the nearest one in its range, 180 to 420 for the sidebar and 260 to 520 for the runtime panel. |
| PreferenceAccepted.DocumentAcceptedIff | desktop/src/desktop-preferences.ts:240-263 | A value of any shape is accepted as a document if and only if it is an object of known preferences, each well-formed where it is given. |
| PreferenceAccepted.AcceptedIff | desktop/src/desktop-preferences.ts:76-238 | Each of the thirteen validators accepts a value if and only if it is well-formed, said for each preference by its own form: names, lengths, bounds, sizes and counts. |
| PreferenceAccepted.BoundsAreTaken | desktop/src/desktop-preferences.ts:115-157 | Of the window bounds exactly the fields that are given are taken; the rest stays as it is. |
| PreferenceAccepted.RecentsAreTaken | desktop/src/desktop-preferences.ts:159-185 | Recent projects are taken one for one and in order. |
| PreferenceAccepted.UniqueIsUnique | desktop/src/desktop-preferences.ts:222-233 | Of the pinned sessions with one key the last one stays, in the place of the first; none is lost and the order of first places is kept. |
| PreferenceAccepted.SameKeyIff | desktop/src/desktop-preferences.ts:230 | Two sessions share a key if and only if they are the same, for project keys without the separating character. |
| PreferenceRoundTrip.UniqueIsDistinct | desktop/src/desktop-preferences.ts:222-233 | Pinned sessions come out without duplicates, none invented. |
| PreferenceSafety.NoLostUpdate | desktop/src/desktop-preferences.ts:303-353 | For every interleaving of calls and steps with readable files: the stored document is the first one with all successful writes applied in call order, and those are exactly the writes whose callers were told of success. |
| PreferenceSafety.ReturnedIsRead | desktop/src/desktop-preferences.ts:309-333 | A successful write returns exactly what the next read returns. |
| PreferenceSafety.FailureChangesNothing | desktop/src/desktop-preferences.ts:303-307 | A write that fails leaves the stored document as it was and the chain free. |
| PreferenceSafety.WriteSucceedsIff | desktop/src/desktop-preferences.ts:265-353 | The caller whose turn it is is told of success if and only if its key and value are accepted, the temporary file is written and it is put in place in at most four attempts, each further one only after EPERM; exactly then the file is the document that was made. |
| PreferenceSafety.OthersKept | desktop/src/desktop-preferences.ts:313-332 | A preference that is not written keeps its value. |
| PreferenceSafety.UnreadableLosesUnlessDefault | desktop/src/desktop-preferences.ts:286-301 | For every key, the merged window bounds included: a write whose own read fails loses nothing if and only if whatever it does not give, every other preference and every other field of the bounds, stands at its default. |
| PreferenceSafety.NeverLostIff | desktop/src/desktop-preferences.ts:286-336 | For every interleaving, with reads that fail at any moment: the stored document is at every moment the first one with the successful writes applied in call order, if and only if every write that succeeded after a failed read met that condition. |
| PreferenceSafety.ThemeIsLost | desktop/src/desktop-preferences.ts:286-301 | A concrete loss: two successful writes, one unreadable moment, and the first one is gone. |
| PreferenceModel.ReplaceDocument | desktop/src/desktop-preferences.ts:265-276 | Replaced if and only if an attempt succeeds after refusals with EPERM only, in at most four attempts. |
| PreferenceStore.DesktopPreferencesStore.WritePreference | desktop/src/desktop-preferences.ts:303-307 | A call is chained behind the ones before it. Keeps the invariant: calls in order, one result each. |
| PreferenceStore.DesktopPreferencesStore.WriteNext | desktop/src/desktop-preferences.ts:309-336 | The read, the validation and the merge of one preference are the step of the model; the file is not touched. Keeps the invariant. |
| PreferenceStore.DesktopPreferencesStore.WriteDocument | desktop/src/desktop-preferences.ts:336-353 | The temporary file and the replacement are the step of the model. A success returns what the next read returns, a failure leaves the file as it was; keeps the invariant. |
| PreferenceStore.DesktopPreferencesStore.ReadStored | desktop/src/desktop-preferences.ts:286-301 | A file that is missing, unreadable or invalid reads as the defaults. |

## Left out

- Standard error and the diagnostic buffer: an easier twin of the framing of standard output.
- UTF-8 decoding across chunks: chunks are already decoded text.
- Electron, React rendering, dialogs, focus, scrolling, the file system beyond one file that is replaced at once.
- JavaScript numbers and strings: line numbers are unbounded, the negative zero of window coordinates is not told from zero, and strings are sequences of characters rather than of UTF-16 units, which matters only for length limits.
- Key order of objects, property getters, sparse arrays and a property named `__proto__`: an object is a map from names to values.
- `workspaceDiffFiles` and `workspaceChangeSummary`, which group what the readers return by path.
- Full escape-sequence handling in the process log: for output with escape sequences the rows are proved to render what the growing plain text adds, not that this is the plain text of the whole.
- Headings, table dividers and list items of the Markdown reader are any functions of a line; table cells, item texts and link targets are kept as written.
- Saves of provider groups that also touch an auto-saved field: such a save carries no revision, and its failure leaves no entry.
- Request keys, timers and debouncing of the summary refresh: a refresh may come at any time with any key.
- Opening a diff without an owner does nothing in the model; in the source it is guarded by the mode and the project.
- Messages of errors: a refused preference is a refusal, whatever its text.
- The request's effect on compaction statistics and prefix observations of the planner.
- Secret redaction, path authorization, Git subprocesses, the Python packages behind the bridge.
