/** projectProcessLogRows of ChatTimeline.tsx: the entries of all streams of a process, in the
    order they came, become one row each; every stream keeps its own screen. */
module ProcessRows {
  import opened Wrappers
  import opened Text
  import opened ProcessLog

  datatype Stream = Stdout | Stderr | Terminal | Status

  datatype Entry = Entry(sequence: nat, stream: Stream, text: string, state: Option<string>)

  function Name(s: Stream): string {
    match s
    case Stdout => "stdout"
    case Stderr => "stderr"
    case Terminal => "terminal"
    case Status => "status"
  }

  predicate IsOutput(e: Entry) {
    !e.stream.Status? && e.text != ""
  }

  /** What a row that is not process output says. */
  function StatusText(e: Entry): string {
    if e.text != "" then e.text else "[" + Name(e.stream) + "] " + (if e.state.Some? then e.state.value else "")
  }

  // ----- one stream among the entries -----

  predicate Feeds(e: Entry, s: Stream) {
    IsOutput(e) && e.stream == s
  }

  /** What belongs to the stream's output entries, in order. */
  function Own<T>(entries: seq<Entry>, things: seq<T>, s: Stream): seq<T>
    requires |entries| == |things|
    decreases |entries|
  {
    if entries == [] then []
    else Own(Front(entries), Front(things), s) + if Feeds(Last(entries), s) then [Last(things)] else []
  }

  /** All the stream has written. */
  function Raw(entries: seq<Entry>, s: Stream): string {
    if entries == [] then ""
    else Raw(Front(entries), s) + if Feeds(Last(entries), s) then Last(entries).text else ""
  }

  predicate Started(entries: seq<Entry>, s: Stream) {
    exists i | 0 <= i < |entries| :: Feeds(entries[i], s)
  }

  /** `next.slice(previous.length)`. */
  function Beyond(previous: string, next: string): string {
    if |previous| <= |next| then next[|previous|..] else ""
  }

  /** The plain text of a stream so far: nothing at all before its first output. */
  function Plain(plain: string -> string, entries: seq<Entry>, s: Stream): string {
    if Started(entries, s) then plain(Raw(entries, s)) else ""
  }

  /** The characters the screen of a stream is fed, each with the number of its row. */
  function Input(plain: string -> string, entries: seq<Entry>, s: Stream): seq<Cell> {
    if entries == [] then []
    else
      var front, e := Front(entries), Last(entries);
      Input(plain, front, s)
        + if Feeds(e, s) then Tag(Beyond(Plain(plain, front, s), plain(Raw(front, s) + e.text)), |Own(front, front, s)|) else []
  }

  lemma OwnNext<T>(entries: seq<Entry>, things: seq<T>, e: Entry, thing: T, s: Stream)
    requires |entries| == |things|
    ensures Own(entries + [e], things + [thing], s) == (if Feeds(e, s) then Own(entries, things, s) + [thing] else Own(entries, things, s))
    ensures Raw(entries + [e], s) == (if Feeds(e, s) then Raw(entries, s) + e.text else Raw(entries, s))
    ensures Started(entries + [e], s) <==> Started(entries, s) || Feeds(e, s)
  {
    hide Started;
    assert Front(entries + [e]) == entries && Front(things + [thing]) == things;
    assert (entries + [e])[|entries|] == e;
    StartedNext(entries, e, s);
    assert Own(entries, things, s) + [] == Own(entries, things, s) && Raw(entries, s) + "" == Raw(entries, s);
  }

  lemma StartedNext(entries: seq<Entry>, e: Entry, s: Stream)
    ensures Started(entries + [e], s) <==> Started(entries, s) || Feeds(e, s)
  {
    assert (entries + [e])[|entries|] == e;
    if Started(entries, s) {
      var i :| 0 <= i < |entries| && Feeds(entries[i], s);
      assert (entries + [e])[i] == entries[i];
    }
  }

  lemma InputNext(plain: string -> string, entries: seq<Entry>, e: Entry, s: Stream)
    ensures Input(plain, entries + [e], s) ==
      if Feeds(e, s)
      then Input(plain, entries, s)
        + Tag(Beyond(Plain(plain, entries, s), plain(Raw(entries, s) + e.text)), |Own(entries, entries, s)|)
      else Input(plain, entries, s)
  {
    assert Input(plain, entries, s) + [] == Input(plain, entries, s);
    assert Front(entries + [e]) == entries;
  }

  lemma {:induction false} OwnLength<A, B>(entries: seq<Entry>, a: seq<A>, b: seq<B>, s: Stream)
    requires |entries| == |a| == |b|
    ensures |Own(entries, a, s)| == |Own(entries, b, s)|
    ensures Own(entries, a, s) == [] <==> !Started(entries, s)
    decreases |entries|
  {
    if entries != [] {
      OwnLength(Front(entries), Front(a), Front(b), s);
      assert entries == Front(entries) + [Last(entries)] && a == Front(a) + [Last(a)];
      OwnNext(Front(entries), Front(a), Last(entries), Last(a), s);
    }
  }

  lemma {:induction false} OwnFrom<T>(entries: seq<Entry>, things: seq<T>, s: Stream, t: T)
    requires |entries| == |things| && t in Own(entries, things, s)
    ensures exists i | 0 <= i < |entries| :: things[i] == t && Feeds(entries[i], s)
    decreases |entries|
  {
    if Feeds(Last(entries), s) && t == Last(things) {
      assert things[|entries| - 1] == t;
    } else {
      OwnFrom(Front(entries), Front(things), s, t);
      var i :| 0 <= i < |entries| - 1 && Front(things)[i] == t && Feeds(Front(entries)[i], s);
      assert things[i] == t && Feeds(entries[i], s);
    }
  }

  /** A row belongs to the stream of its own entry and to no other. */
  lemma OwnIsOwn(entries: seq<Entry>, rows: seq<Row>, s: Stream)
    requires |entries| == |rows| && Distinct(rows)
    ensures forall row | row in Own(entries, rows, s) :: row in rows
    ensures forall k | 0 <= k < |rows| && rows[k] in Own(entries, rows, s) :: Feeds(entries[k], s)
  {
    forall row | row in Own(entries, rows, s) ensures row in rows {
      OwnFrom(entries, rows, s, row);
    }
    forall k | 0 <= k < |rows| && rows[k] in Own(entries, rows, s) ensures Feeds(entries[k], s) {
      OwnFrom(entries, rows, s, rows[k]);
    }
  }

  lemma OwnApart(entries: seq<Entry>, rows: seq<Row>, s: Stream, t: Stream)
    requires |entries| == |rows| && Distinct(rows) && s != t
    ensures forall row | row in Own(entries, rows, s) :: row !in Own(entries, rows, t)
  {
    hide Own;
    OwnIsOwn(entries, rows, s);
    OwnIsOwn(entries, rows, t);
  }

  // ----- the code -----

  /** A stream's projection is up to date with the entries read so far. */
  ghost predicate Tracks(plain: string -> string, entries: seq<Entry>, rows: seq<Row>, s: Stream, state: StreamProjection)
    requires |entries| == |rows|
    reads state, state.rows
  {
    && state.Valid()
    && state.rows == Own(entries, rows, s)
    && state.rawText == Raw(entries, s)
    && state.plainText == Plain(plain, entries, s)
    && state.screen == Scan(BLANK, Input(plain, entries, s))
  }

  /** One output entry arrives at its stream. */
  method Receive(plain: string -> string, state: StreamProjection, row: Row, text: string,
                 ghost entries: seq<Entry>, ghost rows: seq<Row>, ghost e: Entry)
    requires |entries| == |rows| && Tracks(plain, entries, rows, e.stream, state)
    requires row !in rows && row !in state.rows && row.text == "" && IsOutput(e) && text == e.text
    modifies state, state.rows, row
    ensures Tracks(plain, entries + [e], rows + [row], e.stream, state) && state.rows == old(state.rows) + [row]
  {
    hide Input, Own, Raw, Started, Plain, Scan, StreamProjection.Valid;
    OwnNext(entries, rows, e, row, e.stream);
    OwnLength(entries, entries, rows, e.stream);
    InputNext(plain, entries, e, e.stream);
    ghost var k := |state.rows|;
    state.Enter(row);
    state.rawText := state.rawText + text;
    var nextPlainText := plain(state.rawText);
    var delta := Beyond(state.plainText, nextPlainText);
    state.plainText := nextPlainText;
    ScanConcat(BLANK, Input(plain, entries, e.stream), Tag(delta, k));
    state.Append(row, delta);
    assert Plain(plain, entries + [e], e.stream) == nextPlainText by {
      PlainStarted(plain, entries + [e], e.stream);
    }
  }

  lemma PlainStarted(plain: string -> string, entries: seq<Entry>, s: Stream)
    requires Started(entries, s)
    ensures Plain(plain, entries, s) == plain(Raw(entries, s))
  {
  }

  lemma {:induction false} NotStarted<T>(plain: string -> string, entries: seq<Entry>, rows: seq<T>, s: Stream)
    requires |entries| == |rows| && !Started(entries, s)
    ensures Own(entries, rows, s) == [] && Raw(entries, s) == "" && Input(plain, entries, s) == [] && Plain(plain, entries, s) == ""
    decreases |entries|
  {
    if entries != [] {
      assert entries == Front(entries) + [Last(entries)];
      OwnNext(Front(entries), Front(rows), Last(entries), Last(rows), s);
      NotStarted(plain, Front(entries), Front(rows), s);
    }
  }

  /** An entry of another stream, or a status entry, changes nothing for this one. */
  lemma Untouched(plain: string -> string, entries: seq<Entry>, rows: seq<Row>, s: Stream, state: StreamProjection, e: Entry, row: Row)
    requires |entries| == |rows| && !Feeds(e, s)
    requires Tracks(plain, entries, rows, s, state)
    ensures Tracks(plain, entries + [e], rows + [row], s, state)
  {
    hide Own, Raw, Input, Started;
    OwnNext(entries, rows, e, row, s);
    InputNext(plain, entries, e, s);
  }

  /** What a projection that is up to date means for its rows. */
  lemma TrackedIsRendered(plain: string -> string, entries: seq<Entry>, rows: seq<Row>, s: Stream, state: StreamProjection)
    requires |entries| == |rows| && Tracks(plain, entries, rows, s, state)
    ensures Paint(Texts(Own(entries, rows, s))) == Rendered(Input(plain, entries, s))
  {
    hide Own, Raw, Input, Started, Plain, Rendered, Paint;
    var cells := Input(plain, entries, s);
    ScanRenders([], cells);
    assert state.screen == Scan(BLANK, cells);
    assert [] + Rendered(Input(plain, entries, s)) == Rendered(Input(plain, entries, s));
  }

  lemma BlankIsRendered(plain: string -> string, entries: seq<Entry>, rows: seq<Row>, s: Stream)
    requires |entries| == |rows| && !Started(entries, s)
    ensures Paint(Texts(Own(entries, rows, s))) == Rendered(Input(plain, entries, s))
  {
    NotStarted(plain, entries, rows, s);
    var none: seq<Row> := [];
    assert Texts(none) == [];
    assert Own(entries, rows, s) == none && Paint([]) == [];
    var cells := Input(plain, entries, s);
    assert FirstNewline(cells) < 0 && Rendered(cells) == Kept(cells);
    KeptNothing();
  }

  lemma StartTracks(plain: string -> string, entries: seq<Entry>, rows: seq<Row>, s: Stream, state: StreamProjection)
    requires |entries| == |rows| && !Started(entries, s)
    requires state.Valid() && state.rows == [] && state.rawText == "" && state.plainText == "" && state.screen == BLANK
    ensures Tracks(plain, entries, rows, s, state)
  {
    NotStarted(plain, entries, rows, s);
  }

  /** A stream's rows are among all rows, hold no status row, and none is another stream's. */
  ghost predicate StreamsApart(entries: seq<Entry>, rows: seq<Row>, s: Stream, a: StreamProjection, t: Stream, b: StreamProjection)
    requires |entries| == |rows|
    reads a, b
  {
    && (forall k | 0 <= k < |a.rows| :: a.rows[k] in rows)
    && (forall k | 0 <= k < |rows| && rows[k] in a.rows :: IsOutput(entries[k]))
    && (s != t ==> forall k | 0 <= k < |a.rows| :: a.rows[k] !in b.rows)
  }

  lemma Apart(plain: string -> string, entries: seq<Entry>, rows: seq<Row>, s: Stream, a: StreamProjection, t: Stream, b: StreamProjection)
    requires |entries| == |rows| && Distinct(rows)
    requires Tracks(plain, entries, rows, s, a) && Tracks(plain, entries, rows, t, b)
    ensures StreamsApart(entries, rows, s, a, t, b)
  {
    hide Own, Raw, Input, Started;
    OwnIsOwn(entries, rows, s);
    assert forall k | 0 <= k < |a.rows| :: a.rows[k] in a.rows;
    if s != t {
      OwnApart(entries, rows, s, t);
    }
  }

  /** An output entry goes to its stream's projection, made on the first one; the other
      projections, and rows that are no output, stay as they are. */
  method Deliver(plain: string -> string, streams: map<Stream, StreamProjection>, row: Row, entry: Entry,
                 ghost entries: seq<Entry>, ghost rows: seq<Row>)
    returns (r: map<Stream, StreamProjection>)
    requires |entries| == |rows| && Distinct(rows) && row !in rows && row.text == "" && IsOutput(entry)
    requires forall s | s in streams :: Tracks(plain, entries, rows, s, streams[s])
    requires forall s, t | s in streams && t in streams && s != t :: streams[s] != streams[t]
    requires forall s: Stream | s !in streams :: !Started(entries, s)
    modifies set s | s in streams :: streams[s]
    modifies rows, row
    ensures r.Keys == streams.Keys + {entry.stream} && forall s | s in r :: if s in streams then r[s] == streams[s] else fresh(r[s])
    ensures Tracks(plain, entries + [entry], rows + [row], entry.stream, r[entry.stream])
    ensures forall s | s in r && s != entry.stream :: Tracks(plain, entries, rows, s, r[s])
    ensures forall k | 0 <= k < |rows| && !IsOutput(entries[k]) :: rows[k].text == old(rows[k].text)
  {
    hide Input, Own, Raw, Plain, Tracks, Paint, Rendered, Started;
    var stream := entry.stream;
    r := streams;
    if stream !in streams {
      var state := new StreamProjection();
      StartTracks(plain, entries, rows, stream, state);
      r := streams[stream := state];
    }
    forall s | s in r ensures StreamsApart(entries, rows, s, r[s], stream, r[stream]) {
      Apart(plain, entries, rows, s, r[s], stream, r[stream]);
    }
    label arrives:
    Receive(plain, r[stream], row, entry.text, entries, rows, entry);
    forall s | s in r && s != stream ensures Tracks(plain, entries, rows, s, r[s]) {
      ghost var mine := r[s].rows;
      assert forall k | 0 <= k < |mine| :: mine[k] in rows && mine[k] !in old@arrives(r[stream].rows);
      assert unchanged@arrives(mine);
    }
  }

  /** One row an entry, in order; rows that are not output say their own text; and what a
      stream's rows hold, in order, is the batch rendering of what the stream was fed: for output
      without escape sequences, of all its printable text. */
  method ProjectProcessLogRows(plain: string -> string, entries: seq<Entry>) returns (rows: seq<Row>)
    ensures |rows| == |entries| && fresh(rows) && Distinct(rows)
    ensures forall i | 0 <= i < |rows| :: rows[i].sequence == entries[i].sequence
    ensures forall i | 0 <= i < |rows| && !IsOutput(entries[i]) :: rows[i].text == plain(StatusText(entries[i]))
    ensures forall s: Stream :: Paint(Texts(Own(entries, rows, s))) == Rendered(Input(plain, entries, s))
    ensures forall s: Stream :: Shows(plain, entries, s, Texts(Own(entries, rows, s)))
  {
    hide Input, Own, Raw, Plain, Tracks, Paint, Rendered, Shows;
    rows := [];
    var streams: map<Stream, StreamProjection> := map[];
    for i := 0 to |entries|
      invariant |rows| == i && fresh(rows) && Distinct(rows)
      invariant forall k | 0 <= k < i :: rows[k].sequence == entries[k].sequence
      invariant forall k | 0 <= k < i && !IsOutput(entries[k]) :: rows[k].text == plain(StatusText(entries[k]))
      invariant forall s | s in streams :: fresh(streams[s])
      invariant forall s | s in streams :: Tracks(plain, entries[..i], rows, s, streams[s])
      invariant forall s, t | s in streams && t in streams && s != t :: streams[s] != streams[t]
      invariant forall s: Stream | s !in streams :: !Started(entries[..i], s)
    {
      ghost var done, before := entries[..i], rows;
      var entry := entries[i];
      assert entries[..i + 1] == done + [entry];
      var row := new Row(entry.sequence);
      rows := rows + [row];
      forall s: Stream {
        OwnNext(done, before, entry, row, s);
      }
      if !IsOutput(entry) {
        row.text := plain(StatusText(entry));
      } else {
        streams := Deliver(plain, streams, row, entry, done, before);
      }
      forall s | s in streams && !Feeds(entry, s) {
        Untouched(plain, done, before, s, streams[s], entry, row);
      }
    }
    assert entries[..|entries|] == entries;
    forall s: Stream ensures Paint(Texts(Own(entries, rows, s))) == Rendered(Input(plain, entries, s)) {
      if s in streams {
        TrackedIsRendered(plain, entries, rows, s, streams[s]);
      } else {
        BlankIsRendered(plain, entries, rows, s);
      }
    }
    forall s: Stream ensures Shows(plain, entries, s, Texts(Own(entries, rows, s))) {
      TextsShow(plain, entries, s, Texts(Own(entries, rows, s)));
    }
  }

  // ----- what it means for the text, when the output holds no escape sequence -----

  function Erase(cells: seq<Cell>): (r: string)
    ensures |r| == |cells| && forall i | 0 <= i < |cells| :: r[i] == cells[i].c
  {
    seq(|cells|, i requires 0 <= i < |cells| => cells[i].c)
  }

  function Concat(texts: seq<string>): string {
    if texts == [] then "" else Concat(Front(texts)) + Last(texts)
  }

  /** What row `row` has among the cells. */
  function RowText(cells: seq<Cell>, row: nat): string {
    if cells == [] then ""
    else RowText(Front(cells), row) + if Last(cells).row == row then [Last(cells).c] else ""
  }

  lemma {:induction false} RowTextConcat(a: seq<Cell>, b: seq<Cell>, row: nat)
    ensures RowText(a + b, row) == RowText(a, row) + RowText(b, row)
    decreases |b|
  {
    if b == [] {
      assert a + b == a;
    } else {
      assert Front(a + b) == a + Front(b) && Last(a + b) == Last(b);
      RowTextConcat(a, Front(b), row);
    }
  }

  lemma {:induction false} RowTextTag(text: string, k: nat, row: nat)
    ensures RowText(Tag(text, k), row) == if k == row then text else ""
    decreases |text|
  {
    if text != "" {
      RowTextTag(Front(text), k, row);
      assert Front(Tag(text, k)) == Tag(Front(text), k);
      assert text == Front(text) + [Last(text)];
    }
  }

  /** Each row holds exactly its own cells of what is painted... */
  lemma {:induction false} PaintRow(texts: seq<string>, row: nat)
    ensures RowText(Paint(texts), row) == if row < |texts| then texts[row] else ""
    decreases |texts|
  {
    hide Tag, RowText, Paint;
    if texts == [] {
      NothingPainted(row);
    } else {
      var front, last := Front(texts), Last(texts);
      assert texts == front + [last];
      PaintRow(front, row);
      PaintNext(front, last);
      RowTextConcat(Paint(front), Tag(last, |front|), row);
      RowTextTag(last, |front|, row);
      assert "" + last == last;
      if row < |front| {
        assert texts[row] + "" == texts[row];
      }
    }
  }

  lemma NothingPainted(row: nat)
    ensures Paint([]) == [] && RowText([], row) == ""
  {
  }

  /** ... and together they hold all of it. */
  lemma {:induction false} PaintAll(texts: seq<string>)
    ensures Erase(Paint(texts)) == Concat(texts)
    decreases |texts|
  {
    hide Tag, Paint;
    if texts == [] {
      NothingPainted(0);
    } else {
      var front, last := Front(texts), Last(texts);
      assert texts == front + [last];
      PaintAll(front);
      PaintNext(front, last);
      EraseConcat(Paint(front), Tag(last, |front|));
      EraseTag(last, |front|);
    }
  }

  lemma EraseTag(text: string, k: nat)
    ensures Erase(Tag(text, k)) == text
  {
  }

  /** Where a stream was cut into rows makes no difference to the text that is rendered. */
  lemma {:induction false} CutsDoNotMatter(a: seq<Cell>, b: seq<Cell>)
    requires Erase(a) == Erase(b)
    ensures Erase(Rendered(a)) == Erase(Rendered(b))
  {
    ScanRenders([], a);
    ScanRenders([], b);
    ScanErased(a, b);
    var s, t := Scan(BLANK, a), Scan(BLANK, b);
    assert [] + Rendered(a) == Rendered(a) && [] + Rendered(b) == Rendered(b);
    EraseConcat(s.done, s.line);
    EraseConcat(t.done, t.line);
  }

  lemma EraseConcat(a: seq<Cell>, b: seq<Cell>)
    ensures Erase(a + b) == Erase(a) + Erase(b)
  {
  }

  lemma {:induction false} ScanErased(a: seq<Cell>, b: seq<Cell>)
    requires Erase(a) == Erase(b)
    ensures var s, t := Scan(BLANK, a), Scan(BLANK, b);
            Erase(s.done) == Erase(t.done) && Erase(s.line) == Erase(t.line) && s.pending == t.pending
    decreases |a|
  {
    if a != [] {
      assert Erase(Front(a)) == Front(Erase(a)) && Erase(Front(b)) == Front(Erase(b));
      ScanErased(Front(a), Front(b));
      assert Last(a).c == Erase(a)[|a| - 1] && Last(b).c == Erase(b)[|b| - 1];
      FeedErased(Scan(BLANK, Front(a)), Scan(BLANK, Front(b)), Last(a), Last(b));
    }
  }

  lemma FeedErased(s: Screen, t: Screen, x: Cell, y: Cell)
    requires Erase(s.done) == Erase(t.done) && Erase(s.line) == Erase(t.line) && s.pending == t.pending && x.c == y.c
    ensures var u, v := Feed(s, x), Feed(t, y);
            Erase(u.done) == Erase(v.done) && Erase(u.line) == Erase(v.line) && u.pending == v.pending
  {
    EraseConcat(s.done, s.line);
    EraseConcat(t.done, t.line);
    EraseConcat(s.done + s.line, [x]);
    EraseConcat(t.done + t.line, [y]);
    EraseConcat(s.line, [x]);
    EraseConcat(t.line, [y]);
    assert Erase([x]) == Erase([y]);
  }

  /** No character that can begin an escape sequence. */
  predicate EscapeFree(text: string) {
    '\U{001B}' !in text && '\U{009B}' !in text
  }

  /** The control characters that `processPlainText` removes; tab, line feed and carriage return stay. */
  predicate IsControl(c: char) {
    c <= '\U{0008}' || c == '\U{000B}' || c == '\U{000C}' || '\U{000E}' <= c <= '\U{001F}' || '\U{007F}' <= c <= '\U{009F}'
  }

  function Printable(text: string): string {
    if text == "" then "" else Printable(Front(text)) + if IsControl(Last(text)) then "" else [Last(text)]
  }

  /** Without escape sequences, the plain text is the text without its control characters. */
  ghost predicate RemovesControls(plain: string -> string) {
    forall text | EscapeFree(text) :: plain(text) == Printable(text)
  }

  lemma {:induction false} PrintableConcat(a: string, b: string)
    ensures Printable(a + b) == Printable(a) + Printable(b)
    decreases |b|
  {
    if b == "" {
      assert a + b == a;
    } else {
      assert Front(a + b) == a + Front(b) && Last(a + b) == Last(b);
      PrintableConcat(a, Front(b));
    }
  }

  lemma {:induction false} InputIsPrintable(plain: string -> string, entries: seq<Entry>, s: Stream)
    requires RemovesControls(plain) && EscapeFree(Raw(entries, s))
    ensures Erase(Input(plain, entries, s)) == Printable(Raw(entries, s))
    decreases |entries|
  {
    hide Input, Raw, Own, Started, RemovesControls, Printable, Erase, EscapeFree, Tag;
    if entries == [] {
      NoInput(plain, s);
    } else {
      var front, e := Front(entries), Last(entries);
      assert entries == front + [e];
      OwnNext(front, front, e, e, s);
      InputNext(plain, front, e, s);
      if Feeds(e, s) {
        EscapeFreeFront(Raw(front, s), e.text);
        InputIsPrintable(plain, front, s);
        DeltaIsPrintable(plain, front, e.text, s);
        PrintableConcat(Raw(front, s), e.text);
        EraseConcat(Input(plain, front, s), Tag(Printable(e.text), |Own(front, front, s)|));
        EraseTag(Printable(e.text), |Own(front, front, s)|);
      } else {
        InputIsPrintable(plain, front, s);
      }
    }
  }

  lemma NoInput(plain: string -> string, s: Stream)
    ensures Erase(Input(plain, [], s)) == "" && Raw([], s) == "" && Printable("") == ""
  {
  }

  lemma EscapeFreeFront(a: string, b: string)
    requires EscapeFree(a + b)
    ensures EscapeFree(a)
  {
    assert forall c | c in a :: c in a + b;
  }

  /** What an entry adds to the plain text of its stream is the plain text of the entry. */
  lemma DeltaIsPrintable(plain: string -> string, front: seq<Entry>, text: string, s: Stream)
    requires RemovesControls(plain) && EscapeFree(Raw(front, s) + text)
    ensures Beyond(Plain(plain, front, s), plain(Raw(front, s) + text)) == Printable(text)
  {
    hide Printable, Started, Raw, Input, Own;
    EscapeFreeFront(Raw(front, s), text);
    PrintableConcat(Raw(front, s), text);
    if !Started(front, s) {
      NotStarted(plain, front, front, s);
      NoInput(plain, s);
      assert "" + Printable(text) == Printable(text);
    }
  }

  /** The whole of it: however the output of a stream is split into entries and interleaved
      with others, its rows together show the rendering of all it has written, and each row
      shows what is left of the characters its own entry brought. */
  ghost predicate Shows(plain: string -> string, entries: seq<Entry>, s: Stream, texts: seq<string>) {
    RemovesControls(plain) && EscapeFree(Raw(entries, s)) ==>
      && Concat(texts) == Erase(Rendered(Tag(Printable(Raw(entries, s)), 0)))
      && forall row | 0 <= row < |texts| :: texts[row] == RowText(Rendered(Input(plain, entries, s)), row)
  }

  lemma TextsShow(plain: string -> string, entries: seq<Entry>, s: Stream, texts: seq<string>)
    requires Paint(texts) == Rendered(Input(plain, entries, s))
    ensures Shows(plain, entries, s, texts)
  {
    hide Paint, Rendered, Input, Raw, RowText, Tag, Printable, Erase, Concat, EscapeFree, RemovesControls;
    if RemovesControls(plain) && EscapeFree(Raw(entries, s)) {
      PaintAll(texts);
      forall row | 0 <= row < |texts| ensures texts[row] == RowText(Rendered(Input(plain, entries, s)), row) {
        PaintRow(texts, row);
      }
      RowsShowOutput(plain, entries, s, texts);
    }
  }

  /** Painted rows of escape-free output spell the rendering of its printable text. */
  lemma RowsShowOutput(plain: string -> string, entries: seq<Entry>, s: Stream, texts: seq<string>)
    requires Paint(texts) == Rendered(Input(plain, entries, s))
    requires RemovesControls(plain) && EscapeFree(Raw(entries, s))
    ensures Concat(texts) == Erase(Rendered(Tag(Printable(Raw(entries, s)), 0)))
  {
    hide Paint, Rendered, Input, Raw, RowText, Tag, Printable, Erase, Concat;
    PaintAll(texts);
    InputIsPrintable(plain, entries, s);
    var all := Tag(Printable(Raw(entries, s)), 0);
    EraseTag(Printable(Raw(entries, s)), 0);
    CutsDoNotMatter(Input(plain, entries, s), all);
  }
}
