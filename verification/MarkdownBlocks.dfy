/** renderMarkdownBlocks of safe-markdown.tsx: a source is read line by line into blocks; quoted
    lines are read again as a source of their own. */
module MarkdownBlocks {
  import opened Wrappers
  import opened Text
  import opened MarkdownLines

  /** Table rows and list items keep their text; the inline reader takes them from there. */
  datatype Block = Fence(code: string, info: string) | Heading(level: nat, text: string)
    | Table(header: string, rows: seq<string>) | Quote(blocks: seq<Block>) | List(ordered: bool, items: seq<string>)
    | Paragraph(lines: seq<string>)

  /** The recognizers of headings, table dividers, list items and of lines that interrupt a
      paragraph: any functions of a line. */
  datatype Grammar = Grammar(heading: string -> Option<(nat, string)>, divider: string -> bool,
    bullet: string -> Option<string>, numbered: string -> Option<string>, interrupts: string -> bool)

  // ----- one line -----

  function Indent(line: string): (n: nat)
    ensures n <= |line| && (n < |line| ==> !IsSpace(line[n]))
  {
    if line == "" || !IsSpace(line[0]) then 0 else 1 + Indent(line[1..])
  }

  /** How many times `c` stands at the beginning. */
  function Repeats(line: string, c: char): (n: nat)
    ensures n <= |line|
  {
    if line == "" || line[0] != c then 0 else 1 + Repeats(line[1..], c)
  }

  datatype Marker = Marker(c: char, length: nat)

  /** Three or more backticks or tildes, and what follows on the line. */
  function OpenFence(line: string): Option<(Marker, string)> {
    var rest := line[Indent(line)..];
    if rest == "" || (rest[0] != '`' && rest[0] != '~') then None
    else
      var n := Repeats(rest, rest[0]);
      if n < 3 then None else Some((Marker(rest[0], n), rest[n..]))
  }

  /** At least as many of the same character, alone on the line. */
  predicate Closes(line: string, m: Marker) {
    var rest := line[Indent(line)..];
    var n := Repeats(rest, m.c);
    n >= m.length && IsBlank(rest[n..])
  }

  predicate IsQuote(line: string) {
    Indent(line) < |line| && line[Indent(line)] == '>'
  }

  /** The line without its quote mark and one space after it. */
  function Unquote(line: string): (r: string)
    requires IsQuote(line)
    ensures |r| < |line|
  {
    var rest := line[Indent(line) + 1..];
    if rest != "" && IsSpace(rest[0]) then rest[1..] else rest
  }

  predicate StartsTable(g: Grammar, lines: seq<Line>, i: nat) {
    i + 1 < |lines| && '|' in lines[i].text && g.divider(lines[i + 1].text)
  }

  // ----- where a block ends -----

  function FenceEnd(lines: seq<Line>, i: nat, m: Marker): (j: nat)
    requires i <= |lines|
    ensures i <= j <= |lines|
    decreases |lines| - i
  {
    if i == |lines| || Closes(lines[i].text, m) then i else FenceEnd(lines, i + 1, m)
  }

  function TableEnd(lines: seq<Line>, i: nat): (j: nat)
    requires i <= |lines|
    ensures i <= j <= |lines|
    decreases |lines| - i
  {
    if i < |lines| && '|' in lines[i].text && !IsBlank(lines[i].text) then TableEnd(lines, i + 1) else i
  }

  function QuoteEnd(lines: seq<Line>, i: nat): (j: nat)
    requires i <= |lines|
    ensures i <= j <= |lines| && forall k | i <= k < j :: IsQuote(lines[k].text)
    decreases |lines| - i
  {
    if i < |lines| && IsQuote(lines[i].text) then QuoteEnd(lines, i + 1) else i
  }

  function Item(g: Grammar, ordered: bool, line: string): Option<string> {
    if ordered then g.numbered(line) else g.bullet(line)
  }

  function ListEnd(g: Grammar, ordered: bool, lines: seq<Line>, i: nat): (j: nat)
    requires i <= |lines|
    ensures i <= j <= |lines| && forall k | i <= k < j :: Item(g, ordered, lines[k].text).Some?
    decreases |lines| - i
  {
    if i < |lines| && Item(g, ordered, lines[i].text).Some? then ListEnd(g, ordered, lines, i + 1) else i
  }

  function ParagraphEnd(g: Grammar, lines: seq<Line>, i: nat): (j: nat)
    requires i <= |lines|
    ensures i <= j <= |lines|
    decreases |lines| - i
  {
    if i < |lines| && !IsBlank(lines[i].text) && !g.interrupts(lines[i].text) && !StartsTable(g, lines, i)
    then ParagraphEnd(g, lines, i + 1) else i
  }

  function TextsOf(lines: seq<Line>, i: nat, j: nat): (r: seq<string>)
    requires i <= j <= |lines|
    ensures |r| == j - i
    decreases j - i
  {
    if i == j then [] else TextsOf(lines, i, j - 1) + [lines[j - 1].text]
  }

  function ItemsOf(g: Grammar, ordered: bool, lines: seq<Line>, i: nat, j: nat): (r: seq<string>)
    requires i <= j <= |lines| && forall k | i <= k < j :: Item(g, ordered, lines[k].text).Some?
    ensures |r| == j - i
    decreases j - i
  {
    if i == j then [] else ItemsOf(g, ordered, lines, i, j - 1) + [Item(g, ordered, lines[j - 1].text).value]
  }

  function Unquoted(lines: seq<Line>, i: nat, j: nat): (r: seq<string>)
    requires i <= j <= |lines| && forall k | i <= k < j :: IsQuote(lines[k].text)
    ensures |r| == j - i
    decreases j - i
  {
    if i == j then [] else Unquoted(lines, i, j - 1) + [Unquote(lines[j - 1].text)]
  }

  // ----- quotes shrink -----

  lemma {:induction false} JoinNext(ps: seq<string>, p: string)
    ensures Join(ps + [p]) == if ps == [] then p else Join(ps) + "\n" + p
    decreases |ps|
  {
    if |ps| == 1 {
      assert (ps + [p])[1..] == [p];
    } else if ps != [] {
      assert (ps + [p])[1..] == ps[1..] + [p];
      JoinNext(ps[1..], p);
    }
  }

  /** Quoted lines joined again are shorter than the stretch they came from. */
  lemma {:induction false} QuoteShrinks(s: string, lines: seq<Line>, i: nat, j: nat)
    requires Tiles(s, 0, lines) && i < j <= |lines| && forall k | i <= k < j :: IsQuote(lines[k].text)
    ensures |Join(Unquoted(lines, i, j))| < lines[j - 1].next - lines[i].start <= |s|
    decreases j - i
  {
    hide Join, Unquote, IsQuote, BreakLen, Unbroken;
    assert LineOk(s, lines[j - 1]);
    var last := lines[j - 1];
    if j == i + 1 {
      JoinNext([], Unquote(last.text));
      assert Unquoted(lines, i, j) == [] + [Unquote(last.text)];
    } else {
      QuoteShrinks(s, lines, i, j - 1);
      JoinNext(Unquoted(lines, i, j - 1), Unquote(last.text));
      assert last.start == lines[j - 2].next;
    }
  }

  // ----- blocks -----

  /** The block that begins at a line, before a quote is read in its turn. */
  datatype Shape = Blank | Whole(block: Block) | Quoted(text: string)

  /** What begins at line `i`, and the line after it. */
  function ShapeAt(g: Grammar, s: string, lines: seq<Line>, i: nat): (r: (Shape, nat))
    requires Tiles(s, 0, lines) && i < |lines|
    ensures i < r.1 <= |lines|
    ensures r.0.Quoted? ==> |r.0.text| < |s|
  {
    var line := lines[i].text;
    if IsBlank(line) then (Blank, i + 1)
    else
      var fence := OpenFence(line);
      if fence.Some? then FenceShape(s, lines, i, fence.value.0, fence.value.1)
      else
        var heading := g.heading(line);
        if heading.Some? then (Whole(Heading(heading.value.0, heading.value.1)), i + 1)
        else if StartsTable(g, lines, i) then TableShape(lines, i)
        else if IsQuote(line) then QuoteShape(s, lines, i)
        else
          var ordered := g.numbered(line).Some?;
          if ordered || g.bullet(line).Some? then ListShape(g, lines, i, ordered) else ParagraphShape(g, lines, i)
  }

  /** `s.slice(a, b)`. */
  function Slice(s: string, a: nat, b: nat): string {
    if a <= b <= |s| then s[a..b] else ""
  }

  /** The code is the source between the opening line and the closing one, or the end. */
  function FenceShape(s: string, lines: seq<Line>, i: nat, m: Marker, info: string): (r: (Shape, nat))
    requires i < |lines|
    ensures i < r.1 <= |lines| && r.0.Whole?
  {
    var j := FenceEnd(lines, i + 1, m);
    (Whole(Fence(Slice(s, lines[i].next, if j < |lines| then lines[j].start else |s|), info)), if j < |lines| then j + 1 else j)
  }

  function TableShape(lines: seq<Line>, i: nat): (r: (Shape, nat))
    requires i + 1 < |lines|
    ensures i < r.1 <= |lines| && r.0.Whole?
  {
    var j := TableEnd(lines, i + 2);
    (Whole(Table(lines[i].text, TextsOf(lines, i + 2, j))), j)
  }

  function QuoteShape(s: string, lines: seq<Line>, i: nat): (r: (Shape, nat))
    requires Tiles(s, 0, lines) && i < |lines| && IsQuote(lines[i].text)
    ensures i < r.1 <= |lines| && r.0.Quoted? && |r.0.text| < |s|
  {
    var j := QuoteEnd(lines, i);
    QuoteShrinks(s, lines, i, j);
    (Quoted(Join(Unquoted(lines, i, j))), j)
  }

  function ListShape(g: Grammar, lines: seq<Line>, i: nat, ordered: bool): (r: (Shape, nat))
    requires i < |lines| && Item(g, ordered, lines[i].text).Some?
    ensures i < r.1 <= |lines| && r.0.Whole?
  {
    var j := ListEnd(g, ordered, lines, i);
    (Whole(List(ordered, ItemsOf(g, ordered, lines, i, j))), j)
  }

  function ParagraphShape(g: Grammar, lines: seq<Line>, i: nat): (r: (Shape, nat))
    requires i < |lines|
    ensures i < r.1 <= |lines| && r.0.Whole?
  {
    var j := ParagraphEnd(g, lines, i + 1);
    (Whole(Paragraph(TextsOf(lines, i, j))), j)
  }

  function BlocksFrom(g: Grammar, s: string, lines: seq<Line>, i: nat): seq<Block>
    requires Tiles(s, 0, lines) && i <= |lines|
    decreases |s|, 0, |lines| - i
  {
    if i == |lines| then []
    else
      var (shape, next) := ShapeAt(g, s, lines, i);
      match shape
      case Blank => BlocksFrom(g, s, lines, next)
      case Whole(block) => [block] + BlocksFrom(g, s, lines, next)
      case Quoted(text) => [Quote(Blocks(g, text))] + BlocksFrom(g, s, lines, next)
  }

  /** The blocks of a source. Nested quotes end, because each is shorter than its source. */
  function Blocks(g: Grammar, s: string): seq<Block>
    decreases |s|, 1, 0
  {
    LinesTile(s, 0);
    BlocksFrom(g, s, LinesFrom(s, 0), 0)
  }

  // ----- the code -----

  /** The inner loops: each finds the end of one kind of block and collects its texts. */
  method ReadFence(lines: seq<Line>, from: nat, m: Marker) returns (closingIndex: nat)
    requires from <= |lines|
    ensures closingIndex == FenceEnd(lines, from, m)
  {
    closingIndex := from;
    while closingIndex < |lines|
      invariant from <= closingIndex <= |lines| && FenceEnd(lines, closingIndex, m) == FenceEnd(lines, from, m)
    {
      if Closes(lines[closingIndex].text, m) {
        return;
      }
      closingIndex := closingIndex + 1;
    }
  }

  method ReadTable(lines: seq<Line>, from: nat) returns (rows: seq<string>, index: nat)
    requires from <= |lines|
    ensures index == TableEnd(lines, from) && rows == TextsOf(lines, from, index)
  {
    rows, index := [], from;
    while index < |lines| && '|' in lines[index].text && !IsBlank(lines[index].text)
      invariant from <= index <= |lines| && TableEnd(lines, index) == TableEnd(lines, from)
      invariant rows == TextsOf(lines, from, index)
    {
      rows := rows + [lines[index].text];
      index := index + 1;
    }
  }

  method ReadQuote(lines: seq<Line>, from: nat) returns (quote: seq<string>, index: nat)
    requires from <= |lines|
    ensures index == QuoteEnd(lines, from) && quote == Unquoted(lines, from, index)
  {
    hide IsQuote, Unquote;
    quote, index := [], from;
    while index < |lines| && IsQuote(lines[index].text)
      invariant from <= index <= |lines| && QuoteEnd(lines, index) == QuoteEnd(lines, from)
      invariant (forall k | from <= k < index :: IsQuote(lines[k].text)) && quote == Unquoted(lines, from, index)
    {
      quote := quote + [Unquote(lines[index].text)];
      index := index + 1;
    }
  }

  method ReadList(g: Grammar, ordered: bool, lines: seq<Line>, from: nat) returns (items: seq<string>, index: nat)
    requires from <= |lines|
    ensures index == ListEnd(g, ordered, lines, from) && items == ItemsOf(g, ordered, lines, from, index)
  {
    items, index := [], from;
    while index < |lines|
      invariant from <= index <= |lines| && ListEnd(g, ordered, lines, index) == ListEnd(g, ordered, lines, from)
      invariant (forall k | from <= k < index :: Item(g, ordered, lines[k].text).Some?)
      invariant items == ItemsOf(g, ordered, lines, from, index)
    {
      var item := Item(g, ordered, lines[index].text);
      if item.None? {
        break;
      }
      items := items + [item.value];
      index := index + 1;
    }
  }

  method ReadParagraph(g: Grammar, lines: seq<Line>, first: nat) returns (paragraph: seq<string>, index: nat)
    requires first < |lines|
    ensures index == ParagraphEnd(g, lines, first + 1) && paragraph == TextsOf(lines, first, index)
  {
    paragraph, index := [lines[first].text], first + 1;
    assert TextsOf(lines, first, first) == [];
    while index < |lines| && !IsBlank(lines[index].text)
      invariant first < index <= |lines| && ParagraphEnd(g, lines, index) == ParagraphEnd(g, lines, first + 1)
      invariant paragraph == TextsOf(lines, first, index)
    {
      if g.interrupts(lines[index].text) || StartsTable(g, lines, index) {
        break;
      }
      paragraph := paragraph + [lines[index].text];
      index := index + 1;
    }
  }

  /** One round of the outer loop, up to the reading of a quote in its turn. */
  method ReadBlock(g: Grammar, source: string, lines: seq<Line>, from: nat) returns (shape: Shape, index: nat)
    requires Tiles(source, 0, lines) && from < |lines|
    ensures (shape, index) == ShapeAt(g, source, lines, from)
  {
    hide Tiles, OpenFence, Closes, IsQuote;
    index := from;
    var line := lines[index].text;
    if IsBlank(line) {
      return Blank, index + 1;
    }
    var fence := OpenFence(line);
    if fence.Some? {
      var (marker, info) := fence.value;
      var bodyStart := lines[index].next;
      index := index + 1;
      var closingIndex := ReadFence(lines, index, marker);
      var bodyEnd := if closingIndex < |lines| then lines[closingIndex].start else |source|;
      return Whole(Fence(Slice(source, bodyStart, bodyEnd), info)), if closingIndex < |lines| then closingIndex + 1 else closingIndex;
    }
    var heading := g.heading(line);
    if heading.Some? {
      return Whole(Heading(heading.value.0, heading.value.1)), index + 1;
    }
    if StartsTable(g, lines, index) {
      var rows;
      rows, index := ReadTable(lines, index + 2);
      return Whole(Table(line, rows)), index;
    }
    if IsQuote(line) {
      var quote;
      quote, index := ReadQuote(lines, index);
      return Quoted(Join(quote)), index;
    }
    var ordered := g.numbered(line).Some?;
    if ordered || g.bullet(line).Some? {
      var items;
      items, index := ReadList(g, ordered, lines, index);
      return Whole(List(ordered, items)), index;
    }
    var paragraph;
    paragraph, index := ReadParagraph(g, lines, index);
    return Whole(Paragraph(paragraph)), index;
  }

  /** Ends for every source: a quote is read again, but it is shorter. */
  method RenderMarkdownBlocks(g: Grammar, source: string) returns (blocks: seq<Block>)
    ensures blocks == Blocks(g, source)
    decreases |source|
  {
    hide ShapeAt, Tiles;
    var lines := SplitMarkdownLines(source);
    blocks := [];
    var index := 0;
    while index < |lines|
      invariant index <= |lines| && blocks + BlocksFrom(g, source, lines, index) == Blocks(g, source)
      decreases |lines| - index
    {
      var shape, next := ReadBlock(g, source, lines, index);
      var rest := BlocksFrom(g, source, lines, next);
      match shape {
        case Blank =>
        case Whole(block) =>
          Regroup(blocks, block, rest);
          blocks := blocks + [block];
        case Quoted(text) =>
          var quoted := RenderMarkdownBlocks(g, text);
          Regroup(blocks, Quote(quoted), rest);
          blocks := blocks + [Quote(quoted)];
      }
      index := next;
    }
    assert blocks + [] == blocks;
  }

  lemma Regroup(a: seq<Block>, b: Block, c: seq<Block>)
    ensures a + ([b] + c) == (a + [b]) + c
  {
  }

  // ----- fenced code comes back -----

  function Repeat(c: char, n: nat): (r: string)
    ensures |r| == n && forall k | 0 <= k < n :: r[k] == c
  {
    seq(n, i => c)
  }

  lemma {:induction false} RepeatsIs(line: string, c: char, n: nat)
    requires n <= |line| && (forall k | 0 <= k < n :: line[k] == c) && (n < |line| ==> line[n] != c)
    ensures Repeats(line, c) == n
    decreases n
  {
    if n > 0 {
      RepeatsIs(line[1..], c, n - 1);
    }
  }

  predicate IsMarker(c: char) {
    c == '`' || c == '~'
  }

  lemma OpensFence(c: char, n: nat, info: string)
    requires IsMarker(c) && n >= 3 && (info != "" ==> info[0] != c)
    ensures OpenFence(Repeat(c, n) + info) == Some((Marker(c, n), info)) && !IsBlank(Repeat(c, n) + info)
  {
    var line := Repeat(c, n) + info;
    assert line[0] == c && line[0] in line && Indent(line) == 0 && line[0..] == line;
    RepeatsIs(line, c, n);
    assert line[n..] == info;
  }

  lemma ClosesFence(c: char, n: nat, m: nat, tail: string)
    requires IsMarker(c) && m >= n >= 3 && IsBlank(tail)
    ensures Closes(Repeat(c, m) + tail, Marker(c, n))
  {
    var line := Repeat(c, m) + tail;
    assert line[0] == c && Indent(line) == 0 && line[0..] == line;
    if tail != "" {
      assert line[m] == tail[0] && tail[0] in tail;
    }
    RepeatsIs(line, c, m);
    assert line[m..] == tail;
  }

  lemma {:induction false} FenceEndIs(lines: seq<Line>, i: nat, j: nat, m: Marker)
    requires i <= j <= |lines| && (j < |lines| ==> Closes(lines[j].text, m))
    requires forall k | i <= k < j :: !Closes(lines[k].text, m)
    ensures FenceEnd(lines, i, m) == j
    decreases j - i
  {
    hide Closes;
    if i < j {
      FenceEndIs(lines, i + 1, j, m);
    }
  }

  predicate EndsInBreak(code: string) {
    code == "" || code[|code| - 1] == '\r' || code[|code| - 1] == '\n'
  }

  /** No line of the code is a closing fence. */
  predicate NoClosing(code: string, from: nat, m: Marker)
    requires from <= |code|
  {
    forall l | l in LinesFrom(code, from) :: !Closes(l.text, m)
  }

  lemma NoClosingNext(code: string, from: nat, m: Marker)
    requires from <= |code| && NoClosing(code, from, m)
    ensures var k := NextBreak(code, from);
            !Closes(code[from..k], m) && (k < |code| ==> NoClosing(code, k + BreakLen(code, k), m))
  {
    hide Closes, LinesFrom, NextBreak, BreakLen;
    var k := NextBreak(code, from);
    LinesUnfold(code, from);
    if k < |code| {
      var line, rest := Line(code[from..k], from, k + BreakLen(code, k)), LinesFrom(code, k + BreakLen(code, k));
      NoneCloses(line, rest, m);
    } else {
      assert code[from..k] == code[from..];
      NoneCloses(Line(code[from..], from, |code|), [], m);
    }
  }

  lemma NoneCloses(line: Line, rest: seq<Line>, m: Marker)
    requires forall l | l in [line] + rest :: !Closes(l.text, m)
    ensures !Closes(line.text, m) && forall l | l in rest :: !Closes(l.text, m)
  {
    hide Closes;
    assert line in [line] + rest && forall l | l in rest :: l in [line] + rest;
  }

  /** Lines none of which closes, and a last one. */
  predicate CodeThen(lines: seq<Line>, m: Marker, last: Line) {
    && lines != [] && lines[|lines| - 1] == last
    && forall k | 0 <= k < |lines| - 1 :: !Closes(lines[k].text, m)
  }

  lemma CodeThenMore(line: Line, lines: seq<Line>, m: Marker, last: Line)
    requires CodeThen(lines, m, last) && !Closes(line.text, m)
    ensures CodeThen([line] + lines, m, last)
  {
    hide Closes;
    var more := [line] + lines;
    assert forall k | 1 <= k < |more| :: more[k] == lines[k - 1];
  }

  /** The lines of the code inside a longer source, up to the closing line. */
  lemma {:induction false} CodeLines(s: string, p: nat, code: string, i: nat, m: Marker, close: string)
    requires EndsInBreak(code) && i <= |code| && NoClosing(code, i, m)
    requires p + |code| + |close| == |s| && s[p..p + |code|] == code && s[p + |code|..] == close
    requires Unbroken(close) && close != ""
    ensures CodeThen(LinesFrom(s, p + i), m, Line(close, p + |code|, |s|))
    decreases |code| - i
  {
    hide Closes, LinesFrom, NoClosing, BreakLen, CodeThen;
    assert close[0] in close && s[p + |code|] == close[0];
    if i == |code| {
      FirstLine(s, p + i, close);
      OnlyLast(m, Line(close, p + |code|, |s|));
    } else {
      var k := NextBreak(code, i);
      assert k < |code|;
      InsideCode(s, p, code, i, k);
      NoClosingNext(code, i, m);
      var next := k + BreakLen(code, k);
      CodeLines(s, p, code, next, m, close);
      CodeThenMore(Line(code[i..k], p + i, p + next), LinesFrom(s, p + next), m, Line(close, p + |code|, |s|));
    }
  }

  lemma OnlyLast(m: Marker, last: Line)
    ensures CodeThen([last], m, last)
  {
  }

  /** A line of the code is the same line in the source. */
  lemma InsideCode(s: string, p: nat, code: string, i: nat, k: nat)
    requires i <= k < |code| && k == NextBreak(code, i)
    requires p + |code| < |s| && s[p..p + |code|] == code && s[p + |code|] != '\n'
    ensures var next := k + BreakLen(code, k);
            next <= |code| && LinesFrom(s, p + i) == [Line(code[i..k], p + i, p + next)] + LinesFrom(s, p + next)
  {
    hide LinesFrom;
    var part := s[p..p + |code|];
    assert forall x | 0 <= x < |code| :: part[x] == s[p + x];
    assert s[p + i..p + k] == code[i..k];
    SameBreak(s, p, code, k);
    forall x | p + i <= x < p + k ensures s[x] != '\r' && s[x] != '\n' {
      assert s[x] == part[x - p];
    }
    NextBreakIs(s, p + i, p + k);
    LinesUnfold(s, p + i);
  }

  lemma SameBreak(s: string, p: nat, code: string, k: nat)
    requires k < |code| && p + |code| < |s| && s[p..p + |code|] == code && s[p + |code|] != '\n'
    ensures BreakLen(s, p + k) == BreakLen(code, k) && k + BreakLen(code, k) <= |code|
  {
    var part := s[p..p + |code|];
    assert part[k] == s[p + k];
    if k + 1 < |code| {
      assert part[k + 1] == s[p + k + 1];
    }
  }

  /** A line break of its own before `rest`: a lone carriage return must not meet a line feed. */
  predicate IsBreak(nl: string, rest: string) {
    nl == "\n" || nl == "\r\n" || (nl == "\r" && (rest == "" || rest[0] != '\n'))
  }

  /** The source begins with the opening line and a line break. */
  predicate Opens(s: string, open: string, nl: string) {
    && |open| + |nl| <= |s| && IsBreak(nl, s[|open| + |nl|..])
    && (forall k | 0 <= k < |open| :: s[k] == open[k])
    && (forall k | 0 <= k < |nl| :: s[|open| + k] == nl[k])
  }

  lemma OpensWith(open: string, nl: string, rest: string)
    requires IsBreak(nl, rest)
    ensures Opens(open + nl + rest, open, nl)
  {
    assert (open + nl + rest)[|open| + |nl|..] == rest;
  }

  /** The first line of a fenced source, and where the code begins. */
  lemma OpeningLine(s: string, open: string, nl: string)
    requires Opens(s, open, nl) && Unbroken(open)
    ensures LinesFrom(s, 0) == [Line(open, 0, |open| + |nl|)] + LinesFrom(s, |open| + |nl|)
  {
    hide LinesFrom, Unbroken;
    assert s[0..0 + |open|] == open;
    assert s[|open| + 0] == nl[0] && (|nl| == 2 ==> s[|open| + 1] == nl[1]);
    assert |nl| == 1 && |open| + 1 < |s| ==> s[|open| + 1..][0] == s[|open| + 1];
    assert BreakLen(s, |open|) == |nl|;
    FirstLine(s, 0, open);
  }

  lemma FourParts(a: string, b: string, c: string, d: string)
    ensures var s := a + b + c + d;
            && s[..|a|] == a && s[|a|..|a| + |b|] == b && s[|a| + |b|..|a| + |b| + |c|] == c && s[|a| + |b| + |c|..] == d
            && |s| == |a| + |b| + |c| + |d|
  {
  }

  /** Code that ends in a line break and has no closing line comes out of a fence byte for byte. */
  lemma FenceRoundTrip(g: Grammar, c: char, n: nat, info: string, nl: string, code: string, m: nat, tail: string)
    requires IsMarker(c) && m >= n >= 3 && IsBreak(nl, code)
    requires Unbroken(info) && (info != "" ==> info[0] != c) && Unbroken(tail) && IsBlank(tail)
    requires EndsInBreak(code) && NoClosing(code, 0, Marker(c, n))
    ensures Blocks(g, (Repeat(c, n) + info) + nl + code + (Repeat(c, m) + tail)) == [Fence(code, info)]
  {
    hide OpenFence, Closes, IsBlank, NoClosing, Blocks, Repeat, Opens;
    var open, close := Repeat(c, n) + info, Repeat(c, m) + tail;
    OpensFence(c, n, info);
    ClosesFence(c, n, m, tail);
    MarkerLine(c, n, info);
    MarkerLine(c, m, tail);
    FourParts(open, nl, code, close);
    OpensBefore(open, nl, code, close);
    ClosedFence(g, open + nl + code + close, open, nl, code, close, Marker(c, n), info);
  }

  lemma MarkerLine(c: char, n: nat, text: string)
    requires IsMarker(c) && n > 0 && Unbroken(text)
    ensures var line := Repeat(c, n) + text; line != "" && line[0] == c && Unbroken(line)
  {
    var line := Repeat(c, n) + text;
    assert line[0] == Repeat(c, n)[0];
    forall x | x in line ensures x == c || x in text {
    }
  }

  lemma OpensBefore(open: string, nl: string, code: string, close: string)
    requires IsBreak(nl, code) && close != "" && close[0] != '\n'
    ensures Opens(open + nl + code + close, open, nl)
  {
    assert IsBreak(nl, code + close);
    OpensWith(open, nl, code + close);
    assert open + nl + (code + close) == open + nl + code + close;
  }

  lemma ClosedFence(g: Grammar, s: string, open: string, nl: string, code: string, close: string, m: Marker, info: string)
    requires Unbroken(open) && Unbroken(close) && close != "" && EndsInBreak(code) && NoClosing(code, 0, m)
    requires OpenFence(open) == Some((m, info)) && !IsBlank(open) && Closes(close, m)
    requires |s| == |open| + |nl| + |code| + |close|
    requires Opens(s, open, nl)
    requires s[|open| + |nl|..|open| + |nl| + |code|] == code && s[|open| + |nl| + |code|..] == close
    ensures Blocks(g, s) == [Fence(code, info)]
  {
    hide OpenFence, Closes, IsBlank, NoClosing, Blocks, LinesFrom, Tiles, Opens;
    var p := |open| + |nl|;
    OpeningLine(s, open, nl);
    CodeLines(s, p, code, 0, m, close);
    LinesTile(s, 0);
    var ls, lines := LinesFrom(s, p), LinesFrom(s, 0);
    assert lines == [Line(open, 0, p)] + ls;
    assert forall k | 1 <= k < |lines| :: lines[k] == ls[k - 1];
    FenceEndIs(lines, 1, |lines| - 1, m);
    OneFence(g, s, lines, m, info, code);
  }

  lemma OneFence(g: Grammar, s: string, lines: seq<Line>, m: Marker, info: string, code: string)
    requires lines == LinesFrom(s, 0) && Tiles(s, 0, lines) && OpenFence(lines[0].text) == Some((m, info)) && !IsBlank(lines[0].text)
    requires var j := FenceEnd(lines, 1, m);
             if j < |lines| then j == |lines| - 1 && lines[0].next <= lines[j].start <= |s| && s[lines[0].next..lines[j].start] == code
             else lines[0].next <= |s| && s[lines[0].next..] == code
    ensures Blocks(g, s) == [Fence(code, info)]
  {
    hide OpenFence, Tiles, IsBlank, LinesFrom;
    assert s[lines[0].next..|s|] == s[lines[0].next..];
    assert ShapeAt(g, s, lines, 0) == FenceShape(s, lines, 0, m, info);
    assert BlocksFrom(g, s, lines, |lines|) == [];
    assert BlocksFrom(g, s, lines, 0) == [Fence(code, info)] + BlocksFrom(g, s, lines, |lines|);
  }

  /** Without a closing line the rest of the source is the code, whatever it ends in. */
  lemma OpenFenceTakesRest(g: Grammar, c: char, n: nat, info: string, nl: string, code: string)
    requires IsMarker(c) && n >= 3 && IsBreak(nl, code) && Unbroken(info) && (info != "" ==> info[0] != c)
    requires NoClosing((Repeat(c, n) + info) + nl + code, n + |info| + |nl|, Marker(c, n))
    ensures Blocks(g, (Repeat(c, n) + info) + nl + code) == [Fence(code, info)]
  {
    hide OpenFence, Closes, IsBlank, Blocks, LinesFrom, Tiles, Repeat;
    var open, marker := Repeat(c, n) + info, Marker(c, n);
    var s := open + nl + code;
    var p := |open| + |nl|;
    FourParts(open, nl, code, "");
    OpensWith(open, nl, code);
    assert s == s + "" && s[p..] == s[p..p + |code|] == code;
    OpensFence(c, n, info);
    OpeningLine(s, open, nl);
    LinesTile(s, 0);
    var ls, lines := LinesFrom(s, p), LinesFrom(s, 0);
    assert lines == [Line(open, 0, p)] + ls;
    forall k | 1 <= k < |lines| ensures !Closes(lines[k].text, marker) {
      assert lines[k] == ls[k - 1] && ls[k - 1] in ls;
    }
    FenceEndIs(lines, 1, |lines|, marker);
    OneFence(g, s, lines, marker, info, code);
  }
}
