/** What the blocks of a source hold: a layout written from the blocks alone. Every line that is not
    blank belongs to exactly one block, in order, and each block holds its lines whole. */
module MarkdownLayout {
  import opened Wrappers
  import opened Text
  import opened MarkdownLines
  import opened MarkdownBlocks

  // ----- which lines a block holds -----

  /** No recognizer before those of quotes, lists and paragraphs takes the line. */
  predicate NoneBefore(g: Grammar, lines: seq<Line>, i: nat)
    requires i < |lines|
  {
    OpenFence(lines[i].text).None? && g.heading(lines[i].text).None?
  }

  predicate GoesOn(g: Grammar, lines: seq<Line>, k: nat)
    requires k < |lines|
  {
    !IsBlank(lines[k].text) && !g.interrupts(lines[k].text) && !StartsTable(g, lines, k)
  }

  /** `texts` are the lines from `i` to `j`, whole and in order. */
  predicate AreLines(lines: seq<Line>, i: nat, j: nat, texts: seq<string>) {
    i <= j <= |lines| && |texts| == j - i && forall k | i <= k < j :: texts[k - i] == lines[k].text
  }

  /** The code lies between an opening line and the first line that closes it, or the end. */
  predicate HoldsFence(s: string, lines: seq<Line>, i: nat, j: nat, code: string, info: string)
    requires i < j <= |lines|
  {
    OpenFence(lines[i].text).Some? &&
    var (m, rest) := OpenFence(lines[i].text).value;
    && info == rest && (forall k | i < k < j - 1 :: !Closes(lines[k].text, m))
    && if i < j - 1 && Closes(lines[j - 1].text, m) then
         lines[i].next <= lines[j - 1].start <= |s| && code == s[lines[i].next..lines[j - 1].start]
       else j == |lines| && lines[i].next <= |s| && code == s[lines[i].next..]
  }

  predicate IsRow(line: string) {
    '|' in line && !IsBlank(line)
  }

  predicate HoldsTable(g: Grammar, lines: seq<Line>, i: nat, j: nat, header: string, rows: seq<string>)
    requires i < j <= |lines|
  {
    && NoneBefore(g, lines, i) && StartsTable(g, lines, i) && header == lines[i].text
    && AreLines(lines, i + 2, j, rows)
    && (forall k | i + 2 <= k < j :: IsRow(lines[k].text)) && (j < |lines| ==> !IsRow(lines[j].text))
  }

  predicate HoldsList(g: Grammar, lines: seq<Line>, i: nat, j: nat, ordered: bool, items: seq<string>)
    requires i < j <= |lines|
  {
    && NoneBefore(g, lines, i) && !StartsTable(g, lines, i) && !IsQuote(lines[i].text)
    && ordered == g.numbered(lines[i].text).Some? && |items| == j - i
    && (forall k | i <= k < j :: (if ordered then g.numbered(lines[k].text) else g.bullet(lines[k].text)) == Some(items[k - i]))
    && (j < |lines| ==> (if ordered then g.numbered(lines[j].text) else g.bullet(lines[j].text)).None?)
  }

  predicate HoldsParagraph(g: Grammar, lines: seq<Line>, i: nat, j: nat, texts: seq<string>)
    requires i < j <= |lines|
  {
    && NoneBefore(g, lines, i) && !StartsTable(g, lines, i) && !IsQuote(lines[i].text)
    && g.numbered(lines[i].text).None? && g.bullet(lines[i].text).None?
    && AreLines(lines, i, j, texts)
    && (forall k | i < k < j :: GoesOn(g, lines, k)) && (j < |lines| ==> !GoesOn(g, lines, j))
  }

  /** The lines of a quote, each without its mark. */
  ghost predicate QuoteOf(g: Grammar, lines: seq<Line>, i: nat, j: nat, texts: seq<string>)
    requires i < j <= |lines|
  {
    && NoneBefore(g, lines, i) && !StartsTable(g, lines, i) && |texts| == j - i
    && (forall k | i <= k < j :: IsQuote(lines[k].text) && texts[k - i] == Unquote(lines[k].text))
    && (j < |lines| ==> !IsQuote(lines[j].text))
  }

  ghost predicate Holds(g: Grammar, s: string, lines: seq<Line>, i: nat, j: nat, b: Block)
    requires i < j <= |lines|
    decreases |s|, 1, 0
  {
    match b
    case Fence(code, info) => HoldsFence(s, lines, i, j, code, info)
    case Heading(level, text) =>
      OpenFence(lines[i].text).None? && j == i + 1 && g.heading(lines[i].text) == Some((level, text))
    case Table(header, rows) => HoldsTable(g, lines, i, j, header, rows)
    case Quote(blocks) =>
      exists texts :: QuoteOf(g, lines, i, j, texts) && |Join(texts)| < |s| && Lays(g, Join(texts), blocks)
    case List(ordered, items) => HoldsList(g, lines, i, j, ordered, items)
    case Paragraph(texts) => HoldsParagraph(g, lines, i, j, texts)
  }

  /** From line `i` on: blank lines are left out; every other line begins a block, which holds the
      lines up to the next one. */
  ghost predicate LaysFrom(g: Grammar, s: string, lines: seq<Line>, i: nat, blocks: seq<Block>)
    decreases |s|, 2, |lines| - i
  {
    if i >= |lines| then blocks == []
    else if IsBlank(lines[i].text) then LaysFrom(g, s, lines, i + 1, blocks)
    else
      blocks != [] && exists j | i < j <= |lines| :: Holds(g, s, lines, i, j, blocks[0]) && LaysFrom(g, s, lines, j, blocks[1..])
  }

  /** The blocks lay the source out; quotes lay out what they quote. */
  ghost predicate Lays(g: Grammar, s: string, blocks: seq<Block>)
    decreases |s|, 3, 0
  {
    LaysFrom(g, s, LinesFrom(s, 0), 0, blocks)
  }

  // ----- where blocks end -----

  lemma {:induction false} TextsAre(lines: seq<Line>, i: nat, j: nat)
    requires i <= j <= |lines|
    ensures AreLines(lines, i, j, TextsOf(lines, i, j))
    decreases j - i
  {
    if i < j {
      TextsAre(lines, i, j - 1);
    }
  }

  lemma {:induction false} ItemsAre(g: Grammar, ordered: bool, lines: seq<Line>, i: nat, j: nat)
    requires i <= j <= |lines| && forall k | i <= k < j :: Item(g, ordered, lines[k].text).Some?
    ensures forall k | i <= k < j :: Item(g, ordered, lines[k].text) == Some(ItemsOf(g, ordered, lines, i, j)[k - i])
    decreases j - i
  {
    if i < j {
      ItemsAre(g, ordered, lines, i, j - 1);
    }
  }

  lemma {:induction false} UnquotedAre(lines: seq<Line>, i: nat, j: nat)
    requires i <= j <= |lines| && forall k | i <= k < j :: IsQuote(lines[k].text)
    ensures forall k | i <= k < j :: Unquoted(lines, i, j)[k - i] == Unquote(lines[k].text)
    decreases j - i
  {
    hide IsQuote, Unquote;
    if i < j {
      UnquotedAre(lines, i, j - 1);
    }
  }

  lemma {:induction false} FenceEnds(lines: seq<Line>, i: nat, m: Marker)
    requires i <= |lines|
    ensures var j := FenceEnd(lines, i, m);
            (forall k | i <= k < j :: !Closes(lines[k].text, m)) && (j < |lines| ==> Closes(lines[j].text, m))
    decreases |lines| - i
  {
    hide Closes;
    if i < |lines| && !Closes(lines[i].text, m) {
      FenceEnds(lines, i + 1, m);
    }
  }

  lemma {:induction false} TableEnds(lines: seq<Line>, i: nat)
    requires i <= |lines|
    ensures var j := TableEnd(lines, i);
            (forall k | i <= k < j :: IsRow(lines[k].text)) && (j < |lines| ==> !IsRow(lines[j].text))
    decreases |lines| - i
  {
    if i < |lines| && IsRow(lines[i].text) {
      TableEnds(lines, i + 1);
    }
  }

  lemma {:induction false} QuoteEnds(lines: seq<Line>, i: nat)
    requires i <= |lines|
    ensures var j := QuoteEnd(lines, i); j < |lines| ==> !IsQuote(lines[j].text)
    decreases |lines| - i
  {
    hide IsQuote;
    if i < |lines| && IsQuote(lines[i].text) {
      QuoteEnds(lines, i + 1);
    }
  }

  lemma {:induction false} ListEnds(g: Grammar, ordered: bool, lines: seq<Line>, i: nat)
    requires i <= |lines|
    ensures var j := ListEnd(g, ordered, lines, i); j < |lines| ==> Item(g, ordered, lines[j].text).None?
    decreases |lines| - i
  {
    if i < |lines| && Item(g, ordered, lines[i].text).Some? {
      ListEnds(g, ordered, lines, i + 1);
    }
  }

  lemma {:induction false} ParagraphEnds(g: Grammar, lines: seq<Line>, i: nat)
    requires i <= |lines|
    ensures var j := ParagraphEnd(g, lines, i);
            (forall k | i <= k < j :: GoesOn(g, lines, k)) && (j < |lines| ==> !GoesOn(g, lines, j))
    decreases |lines| - i
  {
    hide StartsTable;
    if i < |lines| && GoesOn(g, lines, i) {
      ParagraphEnds(g, lines, i + 1);
    }
  }

  // ----- the blocks lay the source out -----

  lemma FenceHolds(s: string, lines: seq<Line>, i: nat, m: Marker, info: string)
    requires Tiles(s, 0, lines) && i < |lines| && OpenFence(lines[i].text) == Some((m, info))
    ensures var (shape, j) := FenceShape(s, lines, i, m, info);
            shape.block.Fence? && HoldsFence(s, lines, i, j, shape.block.code, shape.block.info)
  {
    hide OpenFence, Closes;
    FenceEnds(lines, i + 1, m);
    FenceFits(s, lines, i, FenceEnd(lines, i + 1, m));
    hide Tiles, FenceEnd;
  }

  lemma FenceFits(s: string, lines: seq<Line>, i: nat, c: nat)
    requires Tiles(s, 0, lines) && i < c <= |lines|
    ensures lines[i].next <= |s| && (c < |lines| ==> lines[i].next <= lines[c].start <= |s|)
  {
    assert LineOk(s, lines[i]);
    if c < |lines| {
      NextBeforeStart(s, lines, i, c);
    }
  }

  lemma {:induction false} NextBeforeStart(s: string, lines: seq<Line>, i: nat, c: nat)
    requires Tiles(s, 0, lines) && i < c < |lines|
    ensures lines[i].next <= lines[c].start <= |s|
    decreases c
  {
    assert LineOk(s, lines[c]) && lines[c].start == lines[c - 1].next;
    if i < c - 1 {
      NextBeforeStart(s, lines, i, c - 1);
      assert LineOk(s, lines[c - 1]);
    }
  }

  lemma TableHolds(g: Grammar, lines: seq<Line>, i: nat)
    requires i < |lines| && NoneBefore(g, lines, i) && StartsTable(g, lines, i)
    ensures var (shape, j) := TableShape(lines, i);
            shape.block.Table? && HoldsTable(g, lines, i, j, shape.block.header, shape.block.rows)
  {
    hide NoneBefore;
    TableEnds(lines, i + 2);
    TextsAre(lines, i + 2, TableEnd(lines, i + 2));
  }

  lemma ListHolds(g: Grammar, lines: seq<Line>, i: nat, ordered: bool)
    requires i < |lines| && NoneBefore(g, lines, i) && !StartsTable(g, lines, i) && !IsQuote(lines[i].text)
    requires ordered == g.numbered(lines[i].text).Some? && Item(g, ordered, lines[i].text).Some?
    ensures var (shape, j) := ListShape(g, lines, i, ordered);
            shape.block.List? && HoldsList(g, lines, i, j, shape.block.ordered, shape.block.items)
  {
    hide NoneBefore, StartsTable, IsQuote;
    ListEnds(g, ordered, lines, i);
    ItemsAre(g, ordered, lines, i, ListEnd(g, ordered, lines, i));
  }

  lemma ParagraphHolds(g: Grammar, lines: seq<Line>, i: nat)
    requires i < |lines| && NoneBefore(g, lines, i) && !StartsTable(g, lines, i) && !IsQuote(lines[i].text)
    requires g.numbered(lines[i].text).None? && g.bullet(lines[i].text).None?
    ensures var (shape, j) := ParagraphShape(g, lines, i);
            shape.block.Paragraph? && HoldsParagraph(g, lines, i, j, shape.block.lines)
  {
    hide NoneBefore, StartsTable, IsQuote, GoesOn;
    ParagraphEnds(g, lines, i + 1);
    TextsAre(lines, i, ParagraphEnd(g, lines, i + 1));
  }

  lemma QuoteHolds(g: Grammar, s: string, lines: seq<Line>, i: nat)
    requires Tiles(s, 0, lines) && i < |lines| && NoneBefore(g, lines, i) && !StartsTable(g, lines, i) && IsQuote(lines[i].text)
    ensures var (shape, j) := QuoteShape(s, lines, i);
            shape.Quoted? && shape.text == Join(Unquoted(lines, i, j)) && QuoteOf(g, lines, i, j, Unquoted(lines, i, j))
  {
    hide NoneBefore, StartsTable, IsQuote, Unquote, Tiles;
    QuoteEnds(lines, i);
    UnquotedAre(lines, i, QuoteEnd(lines, i));
  }

  /** A block that is no quote holds its lines. */
  lemma WholeHolds(g: Grammar, s: string, lines: seq<Line>, i: nat)
    requires Tiles(s, 0, lines) && i < |lines| && ShapeAt(g, s, lines, i).0.Whole?
    ensures var (shape, j) := ShapeAt(g, s, lines, i); Holds(g, s, lines, i, j, shape.block)
  {
    hide OpenFence, IsQuote, StartsTable, HoldsFence, HoldsTable, HoldsList, HoldsParagraph, FenceShape, TableShape, ListShape,
      ParagraphShape, QuoteShape, Tiles;
    var line := lines[i].text;
    var fence := OpenFence(line);
    if fence.Some? {
      FenceHolds(s, lines, i, fence.value.0, fence.value.1);
    } else if g.heading(line).None? {
      if StartsTable(g, lines, i) {
        TableHolds(g, lines, i);
      } else if !IsQuote(line) {
        var ordered := g.numbered(line).Some?;
        if ordered || g.bullet(line).Some? {
          ListHolds(g, lines, i, ordered);
        } else {
          ParagraphHolds(g, lines, i);
        }
      }
    }
  }

  lemma QuotedHolds(g: Grammar, s: string, lines: seq<Line>, i: nat, blocks: seq<Block>)
    requires Tiles(s, 0, lines) && i < |lines| && ShapeAt(g, s, lines, i).0.Quoted?
    requires Lays(g, ShapeAt(g, s, lines, i).0.text, blocks)
    ensures Holds(g, s, lines, i, ShapeAt(g, s, lines, i).1, Quote(blocks))
  {
    hide OpenFence, IsQuote, StartsTable, FenceShape, TableShape, ListShape, ParagraphShape, QuoteShape, Tiles, Lays;
    QuoteHolds(g, s, lines, i);
  }

  lemma {:induction false} BlocksLayFrom(g: Grammar, s: string, lines: seq<Line>, i: nat)
    requires Tiles(s, 0, lines) && i <= |lines|
    ensures LaysFrom(g, s, lines, i, BlocksFrom(g, s, lines, i))
    decreases |s|, 0, |lines| - i
  {
    hide Tiles, Holds, ShapeAt;
    if i < |lines| {
      var (shape, j) := ShapeAt(g, s, lines, i);
      BlankIs(g, s, lines, i);
      BlocksLayFrom(g, s, lines, j);
      match shape {
        case Blank =>
        case Whole(block) =>
          WholeHolds(g, s, lines, i);
          FirstLays(g, s, lines, i, j, block, BlocksFrom(g, s, lines, j));
        case Quoted(text) =>
          BlocksLay(g, text);
          QuotedHolds(g, s, lines, i, Blocks(g, text));
          FirstLays(g, s, lines, i, j, Quote(Blocks(g, text)), BlocksFrom(g, s, lines, j));
      }
    }
  }

  lemma BlankIs(g: Grammar, s: string, lines: seq<Line>, i: nat)
    requires Tiles(s, 0, lines) && i < |lines|
    ensures ShapeAt(g, s, lines, i).0.Blank? <==> IsBlank(lines[i].text)
    ensures ShapeAt(g, s, lines, i).0.Blank? ==> ShapeAt(g, s, lines, i).1 == i + 1
  {
    hide OpenFence, IsQuote, StartsTable, FenceShape, TableShape, ListShape, ParagraphShape, QuoteShape, Tiles;
  }

  lemma FirstLays(g: Grammar, s: string, lines: seq<Line>, i: nat, j: nat, b: Block, rest: seq<Block>)
    requires i < j <= |lines| && !IsBlank(lines[i].text) && Holds(g, s, lines, i, j, b) && LaysFrom(g, s, lines, j, rest)
    ensures LaysFrom(g, s, lines, i, [b] + rest)
  {
    hide Holds;
    assert ([b] + rest)[1..] == rest;
  }

  /** For every source: the blocks lay it out. No line that is not blank is lost, none is shown twice
      or in another order, each block holds its lines whole and goes as far as it can, and what a
      quote shows lays out the quoted text. */
  lemma {:induction false} BlocksLay(g: Grammar, s: string)
    ensures Lays(g, s, Blocks(g, s))
    decreases |s|, 1, 0
  {
    hide Tiles;
    LinesTile(s, 0);
    BlocksLayFrom(g, s, LinesFrom(s, 0), 0);
  }

  // ----- and they are the only ones that do -----

  lemma SameLines(lines: seq<Line>, i: nat, j: nat, a: seq<string>, b: seq<string>)
    requires AreLines(lines, i, j, a) && AreLines(lines, i, j, b)
    ensures a == b
  {
    assert forall x | 0 <= x < |a| :: a[x] == lines[i + x].text && b[x] == lines[i + x].text by {
      forall x | 0 <= x < |a| ensures a[x] == lines[i + x].text && b[x] == lines[i + x].text {
        assert a[(i + x) - i] == lines[i + x].text && b[(i + x) - i] == lines[i + x].text;
      }
    }
  }

  lemma FenceUnique(s: string, lines: seq<Line>, i: nat, j: nat, code: string, info: string, j': nat, code': string, info': string)
    requires i < j <= |lines| && i < j' <= |lines|
    requires HoldsFence(s, lines, i, j, code, info) && HoldsFence(s, lines, i, j', code', info')
    ensures j == j' && code == code' && info == info'
  {
    hide OpenFence, Closes;
  }

  lemma TableUnique(g: Grammar, lines: seq<Line>, i: nat, j: nat, h: string, rows: seq<string>, j': nat, h': string, rows': seq<string>)
    requires i < j <= |lines| && i < j' <= |lines|
    requires HoldsTable(g, lines, i, j, h, rows) && HoldsTable(g, lines, i, j', h', rows')
    ensures j == j' && h == h' && rows == rows'
  {
    hide NoneBefore, StartsTable, IsRow;
    SameLines(lines, i + 2, j, rows, rows');
  }

  lemma ListUnique(g: Grammar, lines: seq<Line>, i: nat, j: nat, o: bool, items: seq<string>, j': nat, o': bool, items': seq<string>)
    requires i < j <= |lines| && i < j' <= |lines|
    requires HoldsList(g, lines, i, j, o, items) && HoldsList(g, lines, i, j', o', items')
    ensures j == j' && o == o' && items == items'
  {
    hide NoneBefore, StartsTable, IsQuote;
    forall x | 0 <= x < |items| ensures items[x] == items'[x] {
      var k := i + x;
      assert (if o then g.numbered(lines[k].text) else g.bullet(lines[k].text)) == Some(items[k - i]);
      assert (if o then g.numbered(lines[k].text) else g.bullet(lines[k].text)) == Some(items'[k - i]);
    }
  }

  lemma ParagraphUnique(g: Grammar, lines: seq<Line>, i: nat, j: nat, ps: seq<string>, j': nat, ps': seq<string>)
    requires i < j <= |lines| && i < j' <= |lines|
    requires HoldsParagraph(g, lines, i, j, ps) && HoldsParagraph(g, lines, i, j', ps')
    ensures j == j' && ps == ps'
  {
    hide NoneBefore, StartsTable, IsQuote, GoesOn;
    SameLines(lines, i, j, ps, ps');
  }

  lemma QuoteUnique(g: Grammar, lines: seq<Line>, i: nat, j: nat, qs: seq<string>, j': nat, qs': seq<string>)
    requires i < j <= |lines| && i < j' <= |lines|
    requires QuoteOf(g, lines, i, j, qs) && QuoteOf(g, lines, i, j', qs')
    ensures j == j' && qs == qs'
  {
    hide NoneBefore, StartsTable, IsQuote, Unquote;
    forall x | 0 <= x < |qs| ensures qs[x] == qs'[x] {
      var k := i + x;
      assert IsQuote(lines[k].text) && qs[k - i] == Unquote(lines[k].text) && qs'[k - i] == Unquote(lines[k].text);
    }
  }

  lemma {:induction false} HoldsUnique(g: Grammar, s: string, lines: seq<Line>, i: nat, j: nat, a: Block, j': nat, b: Block)
    requires i < j <= |lines| && i < j' <= |lines| && Holds(g, s, lines, i, j, a) && Holds(g, s, lines, i, j', b)
    ensures j == j' && a == b
    decreases |s|, 0, 0
  {
    hide OpenFence, StartsTable, IsQuote, GoesOn, IsRow;
    match a
    case Fence(code, info) => FenceUnique(s, lines, i, j, code, info, j', b.code, b.info);
    case Heading(_, _) =>
    case Table(h, rows) => TableUnique(g, lines, i, j, h, rows, j', b.header, b.rows);
    case List(o, items) => ListUnique(g, lines, i, j, o, items, j', b.ordered, b.items);
    case Paragraph(ps) => ParagraphUnique(g, lines, i, j, ps, j', b.lines);
    case Quote(xs) =>
      var qs :| QuoteOf(g, lines, i, j, qs) && |Join(qs)| < |s| && Lays(g, Join(qs), xs);
      assert b.Quote?;
      var qs' :| QuoteOf(g, lines, i, j', qs') && |Join(qs')| < |s| && Lays(g, Join(qs'), b.blocks);
      QuoteUnique(g, lines, i, j, qs, j', qs');
      LaysUnique(g, Join(qs), xs, b.blocks);
  }

  lemma {:induction false} LaysFromUnique(g: Grammar, s: string, lines: seq<Line>, i: nat, a: seq<Block>, b: seq<Block>)
    requires LaysFrom(g, s, lines, i, a) && LaysFrom(g, s, lines, i, b)
    ensures a == b
    decreases |s|, 1, |lines| - i
  {
    hide Holds;
    if i < |lines| {
      if IsBlank(lines[i].text) {
        LaysFromUnique(g, s, lines, i + 1, a, b);
      } else {
        var j :| i < j <= |lines| && Holds(g, s, lines, i, j, a[0]) && LaysFrom(g, s, lines, j, a[1..]);
        var j' :| i < j' <= |lines| && Holds(g, s, lines, i, j', b[0]) && LaysFrom(g, s, lines, j', b[1..]);
        HoldsUnique(g, s, lines, i, j, a[0], j', b[0]);
        LaysFromUnique(g, s, lines, j, a[1..], b[1..]);
        assert a == [a[0]] + a[1..] && b == [b[0]] + b[1..];
      }
    }
  }

  /** There is no other layout: what a source must show is exactly what its blocks are. */
  lemma {:induction false} LaysUnique(g: Grammar, s: string, a: seq<Block>, b: seq<Block>)
    requires Lays(g, s, a) && Lays(g, s, b)
    ensures a == b
    decreases |s|, 2, 0
  {
    LaysFromUnique(g, s, LinesFrom(s, 0), 0, a, b);
  }

  lemma BlocksAreTheLayout(g: Grammar, s: string, blocks: seq<Block>)
    ensures Lays(g, s, blocks) <==> blocks == Blocks(g, s)
  {
    BlocksLay(g, s);
    if Lays(g, s, blocks) {
      LaysUnique(g, s, blocks, Blocks(g, s));
    }
  }

  // ----- the quote mark -----

  lemma {:induction false} IndentIs(pad: string, rest: string)
    requires (forall c | c in pad :: IsSpace(c)) && rest != "" && !IsSpace(rest[0])
    ensures Indent(pad + rest) == |pad|
    decreases |pad|
  {
    if pad == "" {
      assert pad + rest == rest;
    } else {
      assert pad[0] in pad && (pad + rest)[1..] == pad[1..] + rest && forall c | c in pad[1..] :: c in pad;
      IndentIs(pad[1..], rest);
    }
  }

  /** After white space and a mark, one space is left out if there is one, and the rest is quoted. */
  lemma QuoteMark(pad: string, rest: string)
    requires forall c | c in pad :: IsSpace(c)
    ensures IsQuote(pad + (">" + rest))
    ensures Unquote(pad + (">" + rest)) == if rest != "" && IsSpace(rest[0]) then rest[1..] else rest
  {
    IndentIs(pad, ">" + rest);
    assert (pad + (">" + rest))[|pad| + 1..] == rest;
  }

  /** A line is quoted exactly if, after white space, it begins with the mark. */
  lemma QuoteIff(line: string)
    ensures IsQuote(line) <==> exists pad, rest :: AllSpace(pad) && line == pad + (">" + rest)
  {
    if IsQuote(line) {
      var n := Indent(line);
      IndentIsSpace(line);
      Cut(line, n);
      assert line[n..] == ">" + line[n + 1..];
    }
    forall pad, rest | AllSpace(pad) && line == pad + (">" + rest) ensures IsQuote(line) {
      QuoteMark(pad, rest);
    }
  }

  /** Which kind of block a line begins: a fence before a heading, before a table, before a quote,
      before a list, and a paragraph otherwise. */
  lemma KindIs(g: Grammar, s: string, lines: seq<Line>, i: nat)
    requires Tiles(s, 0, lines) && i < |lines| && !IsBlank(lines[i].text)
    ensures BlocksFrom(g, s, lines, i) != []
    ensures var b, line := BlocksFrom(g, s, lines, i)[0], lines[i].text;
            var isFence, isHeading := OpenFence(line).Some?, g.heading(line).Some?;
            var isTable := '|' in line && i + 1 < |lines| && g.divider(lines[i + 1].text);
            var isItem := g.numbered(line).Some? || g.bullet(line).Some?;
            && (b.Fence? <==> isFence)
            && (b.Heading? <==> !isFence && isHeading)
            && (b.Table? <==> !isFence && !isHeading && isTable)
            && (b.Quote? <==> !isFence && !isHeading && !isTable && IsQuote(line))
            && (b.List? <==> !isFence && !isHeading && !isTable && !IsQuote(line) && isItem)
            && (b.Paragraph? <==> !isFence && !isHeading && !isTable && !IsQuote(line) && !isItem)
  {
    ShapeKind(g, s, lines, i);
    hide ShapeAt, OpenFence, IsQuote, Tiles;
  }

  lemma ShapeKind(g: Grammar, s: string, lines: seq<Line>, i: nat)
    requires Tiles(s, 0, lines) && i < |lines| && !IsBlank(lines[i].text)
    ensures var shape, line := ShapeAt(g, s, lines, i).0, lines[i].text;
            var isFence, isHeading := OpenFence(line).Some?, g.heading(line).Some?;
            var isTable := '|' in line && i + 1 < |lines| && g.divider(lines[i + 1].text);
            var isItem := g.numbered(line).Some? || g.bullet(line).Some?;
            if isFence then shape.Whole? && shape.block.Fence?
            else if isHeading then shape.Whole? && shape.block.Heading?
            else if isTable then shape.Whole? && shape.block.Table?
            else if IsQuote(line) then shape.Quoted?
            else if isItem then shape.Whole? && shape.block.List?
            else shape.Whole? && shape.block.Paragraph?
  {
    hide OpenFence, IsQuote, Tiles;
  }

  // ----- the marks of a fence -----

  predicate AllSpace(pad: string) {
    forall c | c in pad :: IsSpace(c)
  }

  lemma {:induction false} IndentIsSpace(line: string)
    ensures AllSpace(line[..Indent(line)])
    decreases |line|
  {
    if line != "" && IsSpace(line[0]) {
      IndentIsSpace(line[1..]);
      assert line[..Indent(line)] == [line[0]] + line[1..][..Indent(line[1..])];
    } else {
      assert line[..Indent(line)] == "";
    }
  }

  lemma {:induction false} RepeatsAre(line: string, c: char)
    ensures var n := Repeats(line, c);
            line[..n] == Repeat(c, n) && (n < |line| ==> line[n] != c)
    decreases |line|
  {
    var n := Repeats(line, c);
    if n > 0 {
      RepeatsAre(line[1..], c);
      assert line[..n] == [c] + line[1..][..n - 1];
      assert Repeat(c, n) == [c] + Repeat(c, n - 1);
    } else {
      assert line[..n] == "" && Repeat(c, 0) == "";
    }
  }

  lemma Cut(s: string, i: nat)
    requires i <= |s|
    ensures s == s[..i] + s[i..]
  {
  }

  /** A line opens a fence exactly if, after white space, it begins with three or more backticks or
      tildes; the marker is all of them, the info what follows. */
  lemma OpensIff(line: string, m: Marker, info: string)
    ensures OpenFence(line) == Some((m, info)) <==>
              && m.c in {'`', '~'} && m.length >= 3 && (info != "" ==> info[0] != m.c)
              && exists pad :: AllSpace(pad) && line == pad + (Repeat(m.c, m.length) + info)
  {
    if OpenFence(line) == Some((m, info)) {
      var n := Indent(line);
      IndentIsSpace(line);
      RepeatsAre(line[n..], m.c);
      Cut(line, n);
      Cut(line[n..], m.length);
      assert AllSpace(line[..n]) && line == line[..n] + (Repeat(m.c, m.length) + info);
    }
    forall pad | AllSpace(pad) && m.c in {'`', '~'} && m.length >= 3 && (info != "" ==> info[0] != m.c)
                 && line == pad + (Repeat(m.c, m.length) + info)
      ensures OpenFence(line) == Some((m, info))
    {
      var rest := Repeat(m.c, m.length) + info;
      assert rest[0] == m.c;
      IndentIs(pad, rest);
      assert line[|pad|..] == rest;
      RepeatsIs(rest, m.c, m.length);
      assert rest[m.length..] == info;
    }
  }

  /** And closes one exactly if it holds at least as many, alone between white space. */
  lemma ClosesIff(line: string, m: Marker)
    requires m.c in {'`', '~'}
    ensures m.length > 0 ==>
              (Closes(line, m) <==>
               exists pad, n: nat, tail :: AllSpace(pad) && AllSpace(tail) && n >= m.length && line == pad + (Repeat(m.c, n) + tail))
  {
    if m.length > 0 {
      if Closes(line, m) {
        ClosesHas(line, m);
      }
      forall pad, n: nat, tail | AllSpace(pad) && AllSpace(tail) && n >= m.length && line == pad + (Repeat(m.c, n) + tail)
        ensures Closes(line, m)
      {
        HasCloses(line, m, pad, n, tail);
      }
    }
  }

  lemma ClosesHas(line: string, m: Marker)
    requires Closes(line, m)
    ensures exists pad, n: nat, tail :: AllSpace(pad) && AllSpace(tail) && n >= m.length && line == pad + (Repeat(m.c, n) + tail)
  {
    var i := Indent(line);
    var n := Repeats(line[i..], m.c);
    IndentIsSpace(line);
    RepeatsAre(line[i..], m.c);
    hide Indent, Repeats, Repeat;
    Cut(line, i);
    Cut(line[i..], n);
    assert AllSpace(line[..i]) && AllSpace(line[i..][n..]) && line == line[..i] + (Repeat(m.c, n) + line[i..][n..]);
  }

  lemma HasCloses(line: string, m: Marker, pad: string, n: nat, tail: string)
    requires m.c in {'`', '~'} && AllSpace(pad) && AllSpace(tail) && n >= m.length > 0 && line == pad + (Repeat(m.c, n) + tail)
    ensures Closes(line, m)
  {
    var rest := Repeat(m.c, n) + tail;
    assert rest[0] == m.c;
    IndentIs(pad, rest);
    assert line[|pad|..] == rest;
    assert tail != "" ==> tail[0] in tail;
    RepeatsIs(rest, m.c, n);
    assert rest[n..] == tail;
  }
}
