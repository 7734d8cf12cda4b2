/** splitTokenStream of DocumentPreviewPanel.tsx: a nested highlight tree is cut into lines. */
module TokenStream {
  import opened Text

  datatype Alias = NoAlias | One(name: string) | Several(names: seq<string>)

  /** `string | Token | Array<string | Token>`. */
  datatype Stream = Leaf(text: string) | Token(kind: string, content: Stream, alias: Alias) | Many(items: seq<Stream>)

  /** One enclosing token, as the renderer turns it into a class list. */
  datatype Mark = Mark(kind: string, alias: Alias)

  /** A character and the tokens around it, outermost first. */
  datatype Glyph = Glyph(c: char, marks: seq<Mark>)

  // ----- what a stream shows -----

  function Glyphs(text: string, marks: seq<Mark>): (g: seq<Glyph>)
    ensures |g| == |text|
  {
    if text == "" then [] else [Glyph(text[0], marks)] + Glyphs(text[1..], marks)
  }

  function Shown(s: Stream, marks: seq<Mark>): seq<Glyph>
    decreases s, 0
  {
    match s
    case Leaf(text) => Glyphs(text, marks)
    case Token(kind, content, alias) => Shown(content, marks + [Mark(kind, alias)])
    case Many(items) => ShownAll(items, marks)
  }

  function ShownAll(items: seq<Stream>, marks: seq<Mark>): seq<Glyph>
    decreases items, |items|
  {
    if items == [] then [] else Shown(items[0], marks) + ShownAll(items[1..], marks)
  }

  function ShownLines(lines: seq<seq<Stream>>, marks: seq<Mark>): (r: seq<seq<Glyph>>)
    ensures |r| == |lines|
  {
    if lines == [] then [] else [ShownAll(lines[0], marks)] + ShownLines(lines[1..], marks)
  }

  /** Cutting what is shown at its line feeds: always at least one line. */
  function Cut(gs: seq<Glyph>): (r: seq<seq<Glyph>>)
    ensures r != []
  {
    if gs == [] then [[]]
    else
      var rest := Cut(gs[1..]);
      if gs[0].c == '\n' then [[]] + rest else [[gs[0]] + rest[0]] + rest[1..]
  }

  /** Two cut texts put together: the last line of the one goes on with the first of the other. */
  function Glue(a: seq<seq<Glyph>>, b: seq<seq<Glyph>>): (r: seq<seq<Glyph>>)
    requires a != [] && b != []
    ensures r != []
  {
    Front(a) + [Last(a) + b[0]] + b[1..]
  }

  lemma GlueUnits(a: seq<seq<Glyph>>)
    requires a != []
    ensures Glue([[]], a) == a && Glue(a, [[]]) == a
  {
    assert [] + a[0] == a[0];
    var empty: seq<seq<Glyph>> := [[]];
    assert Front(empty) == [];
    assert Last(a) + [] == Last(a);
    assert a == Front(a) + [Last(a)];
  }

  lemma GlueAssoc(a: seq<seq<Glyph>>, b: seq<seq<Glyph>>, c: seq<seq<Glyph>>)
    requires a != [] && b != [] && c != []
    ensures Glue(Glue(a, b), c) == Glue(a, Glue(b, c))
  {
    var ab, bc := Glue(a, b), Glue(b, c);
    if |b| == 1 {
      assert (Last(a) + b[0]) + c[0] == Last(a) + (b[0] + c[0]);
      assert Front(ab) == Front(a) && Last(ab) == Last(a) + b[0];
      assert bc[0] == b[0] + c[0] && bc[1..] == c[1..];
    } else {
      assert Last(ab) == Last(b) && bc[0] == b[0];
      assert Front(ab) == Front(a) + [Last(a) + b[0]] + b[1..|b| - 1];
      assert bc[1..] == b[1..|b| - 1] + [Last(b) + c[0]] + c[1..];
    }
  }

  lemma {:induction false} CutConcat(a: seq<Glyph>, b: seq<Glyph>)
    ensures Cut(a + b) == Glue(Cut(a), Cut(b))
    decreases |a|
  {
    if a == [] {
      assert a + b == b;
      GlueUnits(Cut(b));
    } else {
      var rest := a[1..];
      CutConcat(rest, b);
      assert (a + b)[1..] == rest + b;
      if a[0].c == '\n' {
        GlueLine(Cut(rest), Cut(b));
      } else {
        GlueFirst(a[0], Cut(rest), Cut(b));
      }
    }
  }

  lemma GlueLine(l: seq<seq<Glyph>>, r: seq<seq<Glyph>>)
    requires l != [] && r != []
    ensures Glue([[]] + l, r) == [[]] + Glue(l, r)
  {
    assert Front([[]] + l) == [[]] + Front(l);
  }

  lemma GlueFirst(x: Glyph, l: seq<seq<Glyph>>, r: seq<seq<Glyph>>)
    requires l != [] && r != []
    ensures Glue([[x] + l[0]] + l[1..], r) == [[x] + Glue(l, r)[0]] + Glue(l, r)[1..]
  {
    var h, g := [[x] + l[0]], Glue(l, r);
    if |l| == 1 {
      assert ([x] + l[0]) + r[0] == [x] + (l[0] + r[0]);
      assert Front(h + l[1..]) == [];
    } else {
      assert Front(h + l[1..]) == h + Front(l)[1..];
      assert g[1..] == Front(l)[1..] + [Last(l) + r[0]] + r[1..];
    }
  }

  lemma {:induction false} ShownAllConcat(a: seq<Stream>, b: seq<Stream>, marks: seq<Mark>)
    ensures ShownAll(a + b, marks) == ShownAll(a, marks) + ShownAll(b, marks)
    decreases |a|
  {
    if a == [] {
      assert a + b == b;
    } else {
      assert (a + b)[1..] == a[1..] + b;
      ShownAllConcat(a[1..], b, marks);
    }
  }

  lemma ShownOne(s: Stream, marks: seq<Mark>)
    ensures ShownAll([s], marks) == Shown(s, marks)
  {
    assert [s][1..] == [];
    assert Shown(s, marks) + [] == Shown(s, marks);
  }

  lemma {:induction false} ShownLinesConcat(a: seq<seq<Stream>>, b: seq<seq<Stream>>, marks: seq<Mark>)
    ensures ShownLines(a + b, marks) == ShownLines(a, marks) + ShownLines(b, marks)
    decreases |a|
  {
    if a == [] {
      assert a + b == b;
    } else {
      assert (a + b)[1..] == a[1..] + b;
      ShownLinesConcat(a[1..], b, marks);
    }
  }

  lemma ShownLine(line: seq<Stream>, marks: seq<Mark>)
    ensures ShownLines([line], marks) == [ShownAll(line, marks)]
  {
    assert [line][1..] == [];
  }

  // ----- the code -----

  /** The array `lines` that the closure `append` grows in place. */
  class LineBuffer {
    var lines: seq<seq<Stream>>

    constructor ()
      ensures lines == [[]]
    {
      lines := [[]];
    }

    /** `lines[lines.length - 1].push(item)`. */
    method Push(item: Stream)
      requires lines != []
      modifies this
      ensures lines == Front(old(lines)) + [Last(old(lines)) + [item]]
    {
      lines := lines[|lines| - 1 := Last(lines) + [item]];
    }

    method AppendText(text: string)
      requires lines != []
      modifies this
      ensures lines != []
      ensures forall marks :: ShownLines(lines, marks) == Glue(ShownLines(old(lines), marks), Cut(Glyphs(text, marks)))
    {
      ghost var start := lines;
      var parts := Split(text);
      Push(Leaf(parts[0]));
      assert parts[..1] == [parts[0]];
      forall marks {
        FirstLeaf(start, parts[0], marks);
      }
      for i := 1 to |parts|
        invariant lines != []
        invariant forall marks :: ShownLines(lines, marks) == Glue(ShownLines(start, marks), Leaves(parts[..i], marks))
      {
        ghost var before := lines;
        lines := lines + [[]];
        Push(Leaf(parts[i]));
        assert lines == before + [[Leaf(parts[i])]] by {
          assert Front(before + [[]]) == before && [] + [Leaf(parts[i])] == [Leaf(parts[i])];
        }
        assert parts[..i + 1] == parts[..i] + [parts[i]];
        forall marks {
          LineShown(before, parts[..i], parts[i], ShownLines(start, marks), marks);
        }
      }
      assert parts[..|parts|] == parts;
      forall marks {
        LeavesCut(text, marks);
      }
    }

    method AppendToken(token: Stream)
      requires lines != [] && token.Token?
      modifies this
      ensures lines != []
      ensures forall marks :: ShownLines(lines, marks) == Glue(ShownLines(old(lines), marks), Cut(Shown(token, marks)))
      decreases token, 1
    {
      ghost var start := lines;
      var nested := SplitTokenStream(token.content);
      assert forall marks :: Inner(token, nested, marks) == Cut(Shown(token, marks));
      if |nested| == 1 {
        Push(token);
        forall marks {
          OneLine(start, token, nested, marks);
        }
        return;
      }
      Push(Token(token.kind, Many(nested[0]), token.alias));
      assert nested[..1] == [nested[0]];
      forall marks {
        FirstWrapped(start, nested[0], token, marks);
      }
      for i := 1 to |nested|
        invariant lines != []
        invariant forall marks :: ShownLines(lines, marks) == Glue(ShownLines(start, marks), Inner(token, nested[..i], marks))
      {
        ghost var before := lines;
        lines := lines + [[Token(token.kind, Many(nested[i]), token.alias)]];
        assert nested[..i + 1] == nested[..i] + [nested[i]];
        forall marks {
          WrappedShown(before, nested[..i], nested[i], token, ShownLines(start, marks), marks);
        }
      }
      assert nested[..|nested|] == nested;
    }

    method Append(value: Stream)
      requires lines != []
      modifies this
      ensures lines != []
      ensures forall marks :: ShownLines(lines, marks) == Glue(ShownLines(old(lines), marks), Cut(Shown(value, marks)))
      decreases value, 2
    {
      ghost var start := lines;
      match value
      case Leaf(text) => AppendText(text);
      case Token(_, _, _) => AppendToken(value);
      case Many(items) =>
        forall marks {
          GlueUnits(ShownLines(lines, marks));
        }
        for i := 0 to |items|
          invariant lines != []
          invariant forall marks :: ShownLines(lines, marks) == Glue(ShownLines(start, marks), Cut(ShownAll(items[..i], marks)))
        {
          Append(items[i]);
          assert items[..i + 1] == items[..i] + [items[i]];
          forall marks {
            ItemShown(items[..i], items[i], ShownLines(start, marks), marks);
          }
        }
        assert items[..|items|] == items;
    }
  }

  /** Cut into lines, the stream shows what it showed: the same characters under the same
      tokens, split at the line feeds. */
  method SplitTokenStream(stream: Stream) returns (lines: seq<seq<Stream>>)
    ensures lines != []
    ensures forall marks :: ShownLines(lines, marks) == Cut(Shown(stream, marks))
    decreases stream, 3
  {
    var buffer := new LineBuffer();
    buffer.Append(stream);
    lines := buffer.lines;
    forall marks ensures ShownLines(lines, marks) == Cut(Shown(stream, marks)) {
      ShownLine([], marks);
      GlueUnits(Cut(Shown(stream, marks)));
    }
  }

  // ----- the steps of the loops -----

  function Leaves(parts: seq<string>, marks: seq<Mark>): (r: seq<seq<Glyph>>)
    ensures |r| == |parts|
  {
    if parts == [] then [] else [Glyphs(parts[0], marks)] + Leaves(parts[1..], marks)
  }

  lemma {:induction false} LeavesConcat(a: seq<string>, b: seq<string>, marks: seq<Mark>)
    ensures Leaves(a + b, marks) == Leaves(a, marks) + Leaves(b, marks)
    decreases |a|
  {
    if a == [] {
      assert a + b == b;
    } else {
      assert (a + b)[1..] == a[1..] + b;
      LeavesConcat(a[1..], b, marks);
    }
  }

  lemma {:induction false} GlyphsConcat(a: string, b: string, marks: seq<Mark>)
    ensures Glyphs(a + b, marks) == Glyphs(a, marks) + Glyphs(b, marks)
    decreases |a|
  {
    if a == "" {
      assert a + b == b;
    } else {
      assert (a + b)[1..] == a[1..] + b;
      GlyphsConcat(a[1..], b, marks);
    }
  }

  lemma {:induction false} PlainCut(a: string, marks: seq<Mark>)
    requires '\n' !in a
    ensures Cut(Glyphs(a, marks)) == [Glyphs(a, marks)]
    decreases |a|
  {
    if a != "" {
      assert a[0] in a;
      PlainCut(a[1..], marks);
      assert Glyphs(a, marks)[1..] == Glyphs(a[1..], marks);
    }
  }

  lemma {:induction false} LeavesCut(text: string, marks: seq<Mark>)
    ensures Leaves(Split(text), marks) == Cut(Glyphs(text, marks))
    decreases |text|
  {
    var i := IndexOf(text, '\n');
    if i < 0 {
      PlainCut(text, marks);
    } else {
      var h, t := text[..i], text[i + 1..];
      LeavesCut(t, marks);
      var rest := Cut(Glyphs(t, marks));
      assert text == h + ("\n" + t);
      GlyphsConcat(h, "\n" + t, marks);
      CutConcat(Glyphs(h, marks), Glyphs("\n" + t, marks));
      PlainCut(h, marks);
      assert ("\n" + t)[1..] == t;
      assert Glyphs("\n" + t, marks)[1..] == Glyphs(t, marks);
      assert Cut(Glyphs("\n" + t, marks)) == [[]] + rest;
      assert ([[]] + rest)[1..] == rest;
      assert Glyphs(h, marks) + [] == Glyphs(h, marks);
      assert ([h] + Split(t))[1..] == Split(t);
    }
  }

  lemma PushShown(lines: seq<seq<Stream>>, item: Stream, marks: seq<Mark>)
    requires lines != []
    ensures ShownLines(Front(lines) + [Last(lines) + [item]], marks) == Glue(ShownLines(lines, marks), [Shown(item, marks)])
  {
    var front, last := Front(lines), Last(lines);
    assert lines == front + [last];
    ShownLinesConcat(front, [last], marks);
    ShownLinesConcat(front, [last + [item]], marks);
    ShownLine(last, marks);
    ShownLine(last + [item], marks);
    ShownAllConcat(last, [item], marks);
    ShownOne(item, marks);
    var shown := ShownLines(front, marks);
    assert Front(shown + [ShownAll(last, marks)]) == shown;
  }

  /** A further line after what is glued on so far. */
  lemma GlueAppend(a: seq<seq<Glyph>>, b: seq<seq<Glyph>>, line: seq<Glyph>)
    requires a != [] && b != []
    ensures Glue(a, b) + [line] == Glue(a, b + [line])
  {
    assert (b + [line])[1..] == b[1..] + [line];
  }

  lemma FirstLeaf(lines: seq<seq<Stream>>, part: string, marks: seq<Mark>)
    requires lines != []
    ensures ShownLines(Front(lines) + [Last(lines) + [Leaf(part)]], marks) == Glue(ShownLines(lines, marks), Leaves([part], marks))
  {
    PushShown(lines, Leaf(part), marks);
    assert [part][1..] == [];
  }

  lemma LineShown(before: seq<seq<Stream>>, parts: seq<string>, part: string, start: seq<seq<Glyph>>, marks: seq<Mark>)
    requires parts != [] && start != []
    requires ShownLines(before, marks) == Glue(start, Leaves(parts, marks))
    ensures ShownLines(before + [[Leaf(part)]], marks) == Glue(start, Leaves(parts + [part], marks))
  {
    ShownLinesConcat(before, [[Leaf(part)]], marks);
    ShownLine([Leaf(part)], marks);
    ShownOne(Leaf(part), marks);
    LeavesConcat(parts, [part], marks);
    GlueAppend(start, Leaves(parts, marks), Glyphs(part, marks));
  }

  /** Lines of a token's content, shown under the token. */
  function Inner(token: Stream, content: seq<seq<Stream>>, marks: seq<Mark>): (r: seq<seq<Glyph>>)
    requires token.Token?
    ensures |r| == |content|
  {
    ShownLines(content, marks + [Mark(token.kind, token.alias)])
  }

  lemma FirstWrapped(lines: seq<seq<Stream>>, content: seq<Stream>, token: Stream, marks: seq<Mark>)
    requires token.Token? && lines != []
    ensures ShownLines(Front(lines) + [Last(lines) + [Token(token.kind, Many(content), token.alias)]], marks)
         == Glue(ShownLines(lines, marks), Inner(token, [content], marks))
  {
    PushShown(lines, Token(token.kind, Many(content), token.alias), marks);
    ShownLine(content, marks + [Mark(token.kind, token.alias)]);
  }

  lemma WrappedShown(before: seq<seq<Stream>>, done: seq<seq<Stream>>, content: seq<Stream>, token: Stream,
                     start: seq<seq<Glyph>>, marks: seq<Mark>)
    requires token.Token? && done != [] && start != []
    requires ShownLines(before, marks) == Glue(start, Inner(token, done, marks))
    ensures ShownLines(before + [[Token(token.kind, Many(content), token.alias)]], marks)
         == Glue(start, Inner(token, done + [content], marks))
  {
    var inner := marks + [Mark(token.kind, token.alias)];
    var wrapped := Token(token.kind, Many(content), token.alias);
    ShownLinesConcat(before, [[wrapped]], marks);
    ShownLine([wrapped], marks);
    ShownOne(wrapped, marks);
    ShownLinesConcat(done, [content], inner);
    ShownLine(content, inner);
    GlueAppend(start, ShownLines(done, inner), ShownAll(content, inner));
  }

  /** A token that holds no line feed is shown on one line by being pushed as it is. */
  lemma OneLine(lines: seq<seq<Stream>>, token: Stream, nested: seq<seq<Stream>>, marks: seq<Mark>)
    requires lines != [] && token.Token? && |nested| == 1
    requires Inner(token, nested, marks) == Cut(Shown(token, marks))
    ensures ShownLines(Front(lines) + [Last(lines) + [token]], marks) == Glue(ShownLines(lines, marks), Cut(Shown(token, marks)))
  {
    PushShown(lines, token, marks);
    SingleCut(Shown(token, marks));
  }

  lemma {:induction false} SingleCut(gs: seq<Glyph>)
    requires |Cut(gs)| == 1
    ensures Cut(gs) == [gs]
    decreases |gs|
  {
    if gs != [] {
      SingleCut(gs[1..]);
      assert gs == [gs[0]] + gs[1..];
    }
  }

  lemma ItemShown(done: seq<Stream>, item: Stream, start: seq<seq<Glyph>>, marks: seq<Mark>)
    requires start != []
    ensures Glue(Glue(start, Cut(ShownAll(done, marks))), Cut(Shown(item, marks))) == Glue(start, Cut(ShownAll(done + [item], marks)))
  {
    ShownAllConcat(done, [item], marks);
    ShownOne(item, marks);
    CutConcat(ShownAll(done, marks), Shown(item, marks));
    GlueAssoc(start, Cut(ShownAll(done, marks)), Cut(Shown(item, marks)));
  }

  // ----- what follows for the text -----

  function TextOf(s: Stream): string
    decreases s, 0
  {
    match s
    case Leaf(text) => text
    case Token(_, content, _) => TextOf(content)
    case Many(items) => TextOfAll(items)
  }

  function TextOfAll(items: seq<Stream>): string
    decreases items, |items|
  {
    if items == [] then "" else TextOf(items[0]) + TextOfAll(items[1..])
  }

  function TextLines(lines: seq<seq<Stream>>): seq<string> {
    if lines == [] then [] else [TextOfAll(lines[0])] + TextLines(lines[1..])
  }

  function Erase(gs: seq<Glyph>): (r: string)
    ensures |r| == |gs|
  {
    if gs == [] then "" else [gs[0].c] + Erase(gs[1..])
  }

  function EraseAll(lines: seq<seq<Glyph>>): seq<string> {
    if lines == [] then [] else [Erase(lines[0])] + EraseAll(lines[1..])
  }

  lemma {:induction false} EraseConcat(a: seq<Glyph>, b: seq<Glyph>)
    ensures Erase(a + b) == Erase(a) + Erase(b)
    decreases |a|
  {
    if a == [] {
      assert a + b == b;
    } else {
      assert (a + b)[1..] == a[1..] + b;
      EraseConcat(a[1..], b);
    }
  }

  lemma {:induction false} EraseGlyphs(text: string, marks: seq<Mark>)
    ensures Erase(Glyphs(text, marks)) == text
    decreases |text|
  {
    if text != "" {
      EraseGlyphs(text[1..], marks);
      assert Glyphs(text, marks)[1..] == Glyphs(text[1..], marks);
    }
  }

  lemma {:induction false} EraseShown(s: Stream, marks: seq<Mark>)
    ensures Erase(Shown(s, marks)) == TextOf(s)
    decreases s, 0
  {
    match s
    case Leaf(text) => EraseGlyphs(text, marks);
    case Token(kind, content, alias) => EraseShown(content, marks + [Mark(kind, alias)]);
    case Many(items) => EraseShownAll(items, marks);
  }

  lemma {:induction false} EraseShownAll(items: seq<Stream>, marks: seq<Mark>)
    ensures Erase(ShownAll(items, marks)) == TextOfAll(items)
    decreases items, |items|
  {
    if items != [] {
      EraseShown(items[0], marks);
      EraseShownAll(items[1..], marks);
      EraseConcat(Shown(items[0], marks), ShownAll(items[1..], marks));
    }
  }

  lemma {:induction false} EraseLines(lines: seq<seq<Stream>>, marks: seq<Mark>)
    ensures EraseAll(ShownLines(lines, marks)) == TextLines(lines)
    decreases |lines|
  {
    if lines != [] {
      EraseShownAll(lines[0], marks);
      EraseLines(lines[1..], marks);
      assert ShownLines(lines, marks)[1..] == ShownLines(lines[1..], marks);
    }
  }

  lemma {:induction false} EraseCut(gs: seq<Glyph>)
    ensures EraseAll(Cut(gs)) == Split(Erase(gs))
    decreases |gs|
  {
    if gs == [] {
      SplitPlain("");
    } else {
      var rest := Cut(gs[1..]);
      EraseCut(gs[1..]);
      var c, tail := [gs[0].c], Erase(gs[1..]);
      SplitConcat(c, tail);
      if gs[0].c == '\n' {
        SplitHead("", "");
        SplitPlain("");
        assert "" + "\n" + "" == c;
        assert Split(c) == ["", ""];
        assert "" + tail == tail;
        assert ([[]] + rest)[1..] == rest;
      } else {
        SplitPlain(c);
        FirstGrows(c, tail);
        assert ([[gs[0]] + rest[0]] + rest[1..])[1..] == rest[1..];
        assert ([gs[0]] + rest[0])[1..] == rest[0];
      }
    }
  }

  lemma FirstGrows(c: string, tail: string)
    requires '\n' !in c
    ensures Split(c + tail) == [c + Split(tail)[0]] + Split(tail)[1..]
  {
    var i := IndexOf(tail, '\n');
    if i < 0 {
      SplitPlain(c + tail);
    } else {
      var h, t := tail[..i], tail[i + 1..];
      assert c + tail == (c + h) + "\n" + t;
      SplitHead(c + h, t);
    }
  }

  function LineFeeds(s: string): nat {
    if s == "" then 0 else (if s[0] == '\n' then 1 else 0) + LineFeeds(s[1..])
  }

  lemma {:induction false} CutCounts(gs: seq<Glyph>)
    ensures |Cut(gs)| == LineFeeds(Erase(gs)) + 1
    decreases |gs|
  {
    if gs != [] {
      CutCounts(gs[1..]);
      assert Erase(gs)[1..] == Erase(gs[1..]);
    }
  }

  /** The lines joined with line feeds are the original text; there is one line more than
      there are line feeds. */
  lemma LinesKeepText(stream: Stream, lines: seq<seq<Stream>>)
    requires ShownLines(lines, []) == Cut(Shown(stream, []))
    ensures TextLines(lines) == Split(TextOf(stream)) && Join(TextLines(lines)) == TextOf(stream)
    ensures |lines| == LineFeeds(TextOf(stream)) + 1
  {
    EraseLines(lines, []);
    EraseShown(stream, []);
    EraseCut(Shown(stream, []));
    JoinSplit(TextOf(stream));
    CutCounts(Shown(stream, []));
  }
}
