/** nextInlineToken, parseMarkdownLink and renderInline of safe-markdown.tsx: links, code, strong
    and emphasis inside one line of text. */
module MarkdownInline {
  import opened Wrappers

  datatype Kind = Link | Code | Strong | Em

  /** `source[start..end]` is a construct; of a link, `middle` is the index of the label's end. */
  datatype Token = Token(start: nat, end: nat, kind: Kind, middle: nat)

  // ----- searching -----

  predicate At(s: string, p: string, i: nat) {
    i + |p| <= |s| && s[i..i + |p|] == p
  }

  /** `s.indexOf(p, from)`. */
  function IndexFrom(s: string, p: string, from: nat): (i: int)
    ensures i >= 0 ==> from <= i && At(s, p, i) && forall j: nat | from <= j < i :: !At(s, p, j)
    ensures i < 0 ==> forall j: nat | from <= j :: !At(s, p, j)
    decreases |s| - from
  {
    if At(s, p, from) then from else if from >= |s| then -1 else IndexFrom(s, p, from + 1)
  }

  // ----- the target of a link -----

  /** How deep in unescaped parentheses a text ends, if it never closes one too many and does not
      stop in the middle of an escape. */
  function Depth(t: string, d: nat): Option<nat>
    decreases |t|
  {
    if t == "" then Some(d)
    else if t[0] == '\\' then (if |t| == 1 then None else Depth(t[2..], d))
    else if t[0] == '(' then Depth(t[1..], d + 1)
    else if t[0] == ')' then (if d == 0 then None else Depth(t[1..], d - 1))
    else Depth(t[1..], d)
  }

  predicate Balanced(t: string) {
    Depth(t, 0) == Some(0)
  }

  /** The loop of parseMarkdownLink, from `i` at depth `d`. */
  function TargetEnd(s: string, i: nat, d: nat): (end: int)
    ensures end >= 0 ==> i <= end < |s| && s[end] == ')'
    decreases |s| - i
  {
    if i >= |s| then -1
    else if s[i] == '\\' then (if i + 2 > |s| then -1 else TargetEnd(s, i + 2, d))
    else if s[i] == '(' then TargetEnd(s, i + 1, d + 1)
    else if s[i] == ')' then (if d == 0 then i else TargetEnd(s, i + 1, d - 1))
    else TargetEnd(s, i + 1, d)
  }

  /** A closing parenthesis that ends a target begun at `from`. */
  predicate EndsTarget(s: string, from: nat, d: nat, end: nat) {
    from <= end < |s| && s[end] == ')' && Depth(s[from..end], d) == Some(0)
  }

  /** The target ends exactly at the one closing parenthesis before which everything is balanced. */
  lemma {:induction false} TargetIsBalanced(s: string, i: nat, d: nat, end: nat)
    requires i <= |s|
    ensures TargetEnd(s, i, d) == end <==> EndsTarget(s, i, d, end)
    decreases |s| - i
  {
    if i < |s| {
      if i < end < |s| {
        assert s[i..end][1..] == s[i + 1..end];
        assert i + 2 <= end ==> s[i..end][2..] == s[i + 2..end];
      }
      if s[i] == '\\' {
        if i + 2 <= |s| {
          TargetIsBalanced(s, i + 2, d, end);
        }
      } else if s[i] == '(' {
        TargetIsBalanced(s, i + 1, d + 1, end);
      } else if s[i] == ')' {
        if d > 0 {
          TargetIsBalanced(s, i + 1, d - 1, end);
        } else {
          assert end == i ==> s[i..end] == "";
        }
      } else {
        TargetIsBalanced(s, i + 1, d, end);
      }
    }
  }

  /** The scan for the end of the target, and the check of the label. */
  method ParseMarkdownLink(source: string, labelStart: nat, targetStart: nat) returns (link: Option<Token>)
    requires targetStart <= |source|
    ensures link == LinkAt(source, labelStart, targetStart)
  {
    var index, depth, targetEnd := targetStart, 0, -1;
    while index < |source|
      invariant targetEnd < 0 && depth >= 0 && index <= |source| + 1
      invariant if index <= |source| then TargetEnd(source, index, depth) == TargetEnd(source, targetStart, 0)
                else TargetEnd(source, targetStart, 0) < 0
      decreases |source| - index, targetEnd < 0
    {
      var character := source[index];
      if character == '\\' {
        index := index + 2;
        continue;
      }
      if character == '(' {
        depth := depth + 1;
      } else if character == ')' {
        if depth == 0 {
          targetEnd := index;
          break;
        }
        depth := depth - 1;
      }
      index := index + 1;
    }
    if targetEnd < 0 {
      return None;
    }
    var labelEnd := IndexFrom(source, "]", labelStart + 1);
    if labelEnd < 0 || !At(source, "(", labelEnd + 1) {
      return None;
    }
    link := Some(Token(labelStart, targetEnd + 1, Link, labelEnd));
  }

  function LinkAt(source: string, labelStart: nat, targetStart: nat): Option<Token>
    requires targetStart <= |source|
  {
    var targetEnd := TargetEnd(source, targetStart, 0);
    var labelEnd := IndexFrom(source, "]", labelStart + 1);
    if targetEnd < 0 || labelEnd < 0 || !At(source, "(", labelEnd + 1) then None
    else Some(Token(labelStart, targetEnd + 1, Link, labelEnd))
  }

  // ----- tokens -----

  function TryLink(s: string, i: nat): Option<Token> {
    if !At(s, "[", i) then None
    else
      var labelEnd := IndexFrom(s, "]", i + 1);
      if labelEnd >= 0 && At(s, "(", labelEnd + 1) then LinkAt(s, i, labelEnd + 2) else None
  }

  function TryCode(s: string, i: nat): Option<Token> {
    if !At(s, "`", i) then None
    else
      var end := IndexFrom(s, "`", i + 1);
      if end >= 0 then Some(Token(i, end + 1, Code, i)) else None
  }

  function TryStrong(s: string, i: nat): Option<Token> {
    if !At(s, "**", i) then None
    else
      var end := IndexFrom(s, "**", i + 2);
      if end > i + 2 then Some(Token(i, end + 2, Strong, i)) else None
  }

  function TryEm(s: string, i: nat): Option<Token> {
    if !At(s, "*", i) || At(s, "*", i + 1) then None
    else
      var end := IndexFrom(s, "*", i + 1);
      if end > i + 1 then Some(Token(i, end + 1, Em, i)) else None
  }

  /** The construct that begins at `i`, in the order they are tried. */
  function TokenAt(s: string, i: nat): (t: Option<Token>)
    ensures t.Some? ==> t.value.start == i && i < t.value.end <= |s|
  {
    var link := TryLink(s, i);
    if link.Some? then link
    else
      var code := TryCode(s, i);
      if code.Some? then code
      else
        var strong := TryStrong(s, i);
        if strong.Some? then strong else TryEm(s, i)
  }

  lemma AtOne(s: string, c: char, i: nat)
    requires i < |s|
    ensures At(s, [c], i) <==> s[i] == c
  {
    assert s[i..i + 1] == [s[i]];
  }

  /** The body of the loop: the constructs are tried in turn. */
  method TokenHere(source: string, index: nat) returns (token: Option<Token>)
    requires index < |source|
    ensures token == TokenAt(source, index)
  {
    AtOne(source, '[', index);
    AtOne(source, '`', index);
    AtOne(source, '*', index);
    if source[index] == '[' {
      var labelEnd := IndexFrom(source, "]", index + 1);
      if labelEnd >= 0 && At(source, "(", labelEnd + 1) {
        var link := ParseMarkdownLink(source, index, labelEnd + 2);
        if link.Some? {
          return link;
        }
      }
    }
    if source[index] == '`' {
      var end := IndexFrom(source, "`", index + 1);
      if end >= 0 {
        return Some(Token(index, end + 1, Code, index));
      }
    }
    if At(source, "**", index) {
      var end := IndexFrom(source, "**", index + 2);
      if end > index + 2 {
        return Some(Token(index, end + 2, Strong, index));
      }
    }
    if source[index] == '*' && !At(source, "*", index + 1) {
      var end := IndexFrom(source, "*", index + 1);
      if end > index + 1 {
        return Some(Token(index, end + 1, Em, index));
      }
    }
    token := None;
  }

  /** The next construct is one that begins at the first index where any does. */
  method NextInlineToken(source: string, from: nat) returns (token: Option<Token>)
    ensures token.Some? ==> from <= token.value.start < |source| && TokenAt(source, token.value.start) == token
    ensures token.Some? ==> NoToken(source, from, token.value.start)
    ensures token.None? ==> NoToken(source, from, |source|)
  {
    hide TokenAt;
    var index := from;
    while index < |source|
      invariant from <= index && NoToken(source, from, index)
    {
      token := TokenHere(source, index);
      if token.Some? {
        return;
      }
      index := index + 1;
    }
    token := None;
  }

  /** Where no construct begins, and so the text stays as it is. */
  predicate NoToken(s: string, from: nat, to: nat) {
    forall i: nat | from <= i < to && i < |s| :: TokenAt(s, i).None?
  }

  // ----- rendering -----

  /** A node, with the raw target of a link before it is decoded. */
  datatype Node = PlainNode(text: string) | CodeNode(text: string) | StrongNode(text: string) | EmNode(text: string)
    | LinkNode(text: string, target: string)

  function NodeOf(s: string, t: Token): Node
    requires t.start < t.end <= |s| && TokenAt(s, t.start) == Some(t)
  {
    match t.kind
    case Link => LinkNode(s[t.start + 1..t.middle], s[t.middle + 2..t.end - 1])
    case Code => CodeNode(s[t.start + 1..t.end - 1])
    case Strong => StrongNode(s[t.start + 2..t.end - 2])
    case Em => EmNode(s[t.start + 1..t.end - 1])
  }

  /** What a node was written as. */
  function Written(n: Node): string {
    match n
    case PlainNode(text) => text
    case CodeNode(text) => "`" + text + "`"
    case StrongNode(text) => "**" + text + "**"
    case EmNode(text) => "*" + text + "*"
    case LinkNode(text, target) => "[" + text + "](" + target + ")"
  }

  function WrittenAll(nodes: seq<Node>): string {
    if nodes == [] then "" else WrittenAll(nodes[..|nodes| - 1]) + Written(nodes[|nodes| - 1])
  }

  lemma OfKind(s: string, i: nat)
    requires TokenAt(s, i).Some?
    ensures var t := TokenAt(s, i);
            t == match t.value.kind case Link => TryLink(s, i) case Code => TryCode(s, i) case Strong => TryStrong(s, i) case Em => TryEm(s, i)
  {
    hide IndexFrom, TargetEnd, At;
  }

  /** A node is written exactly as the characters of its token. */
  lemma NodeIsWritten(s: string, i: nat)
    requires i < |s| && TokenAt(s, i).Some?
    ensures var t := TokenAt(s, i).value; Written(NodeOf(s, t)) == s[i..t.end]
  {
    hide TokenAt, TryLink, TryCode, TryStrong, TryEm;
    OfKind(s, i);
    var t := TokenAt(s, i).value;
    match t.kind
    case Link =>
      LinkIsWritten(s, i);
      assert Written(NodeOf(s, t)) == "[" + s[i + 1..t.middle] + "](" + s[t.middle + 2..t.end - 1] + ")";
    case Code => CodeIsWritten(s, i);
    case Strong => StrongIsWritten(s, i);
    case Em => EmIsWritten(s, i);
  }

  /** Five adjoining slices. */
  lemma FiveSlices(s: string, i: nat, m: nat, e: nat)
    requires i < m && m + 2 < e <= |s|
    ensures s[i..i + 1] + s[i + 1..m] + s[m..m + 2] + s[m + 2..e - 1] + s[e - 1..e] == s[i..e]
  {
  }

  lemma LinkEnds(s: string, i: nat)
    requires i < |s| && TryLink(s, i).Some?
    ensures var t := TryLink(s, i).value;
            && i < t.middle && t.middle + 2 < t.end <= |s|
            && s[i] == '[' && s[t.middle] == ']' && s[t.middle + 1] == '(' && s[t.end - 1] == ')'
  {
    var m := TryLink(s, i).value.middle;
    AtOne(s, '[', i);
    AtOne(s, ']', m);
    AtOne(s, '(', m + 1);
  }

  lemma LinkIsWritten(s: string, i: nat)
    requires i < |s| && TryLink(s, i).Some?
    ensures var t := TryLink(s, i).value;
            i < t.middle && t.middle + 2 < t.end <= |s|
            && "[" + s[i + 1..t.middle] + "](" + s[t.middle + 2..t.end - 1] + ")" == s[i..t.end]
  {
    hide TryLink;
    LinkEnds(s, i);
    var m, e := TryLink(s, i).value.middle, TryLink(s, i).value.end;
    FiveSlices(s, i, m, e);
    assert s[i..i + 1] == "[";
    assert s[m..m + 2] == "](";
    assert s[e - 1..e] == ")";
  }

  lemma CodeIsWritten(s: string, i: nat)
    requires i < |s| && TryCode(s, i).Some?
    ensures var t := TryCode(s, i).value; "`" + s[i + 1..t.end - 1] + "`" == s[i..t.end]
  {
  }

  lemma StrongIsWritten(s: string, i: nat)
    requires i < |s| && TryStrong(s, i).Some?
    ensures var t := TryStrong(s, i).value; "**" + s[i + 2..t.end - 2] + "**" == s[i..t.end]
  {
  }

  lemma EmIsWritten(s: string, i: nat)
    requires i < |s| && TryEm(s, i).Some?
    ensures var t := TryEm(s, i).value; "*" + s[i + 1..t.end - 1] + "*" == s[i..t.end]
  {
    var end := IndexFrom(s, "*", i + 1);
    AtOne(s, '*', i);
    AtOne(s, '*', end);
    assert s[i..end + 1] == [s[i]] + s[i + 1..end] + [s[end]];
  }

  lemma WrittenNext(nodes: seq<Node>, n: Node)
    ensures WrittenAll(nodes + [n]) == WrittenAll(nodes) + Written(n)
  {
    assert (nodes + [n])[..|nodes|] == nodes;
  }

  predicate LinksBalanced(nodes: seq<Node>) {
    forall n | n in nodes && n.LinkNode? :: Balanced(n.target)
  }

  lemma WrittenUpTo(s: string, last: nat, i: nat, j: nat)
    requires last <= i <= j <= |s|
    ensures s[..last] + s[last..i] == s[..i] && s[..i] + s[i..j] == s[..j]
  {
  }

  /** One round of the loop: what is written so far goes on up to the end of the token. */
  lemma PieceIsWritten(s: string, nodes: seq<Node>, last: nat, t: Token)
    requires last <= t.start < t.end <= |s| && TokenAt(s, t.start) == Some(t)
    requires WrittenAll(nodes) == s[..last] && LinksBalanced(nodes)
    ensures WrittenAll(nodes + Piece(s, last, t)) == s[..t.end] && LinksBalanced(nodes + Piece(s, last, t))
  {
    var plain, node := PlainNode(s[last..t.start]), NodeOf(s, t);
    var before := if t.start > last then nodes + [plain] else nodes;
    assert before + [node] == nodes + Piece(s, last, t) by {
      hide NodeOf;
    }
    assert (node.LinkNode? ==> Balanced(node.target)) && Written(node) == s[t.start..t.end] by {
      hide NodeOf, Written;
      NodeIsWritten(s, t.start);
      TargetBalanced(s, t);
    }
    hide *;
    PlainIsWritten(s[last..t.start]);
    BothNext(nodes, plain);
    BothNext(before, node);
    WrittenUpTo(s, last, t.start, t.end);
  }

  lemma PlainIsWritten(text: string)
    ensures Written(PlainNode(text)) == text
  {
  }

  lemma BothNext(nodes: seq<Node>, n: Node)
    requires LinksBalanced(nodes) && (n.LinkNode? ==> Balanced(n.target))
    ensures WrittenAll(nodes + [n]) == WrittenAll(nodes) + Written(n) && LinksBalanced(nodes + [n])
  {
    WrittenNext(nodes, n);
    hide WrittenAll, Written, Balanced;
  }

  lemma TargetBalanced(s: string, t: Token)
    requires t.start < t.end <= |s| && TokenAt(s, t.start) == Some(t)
    ensures var n := NodeOf(s, t); n.LinkNode? ==> Balanced(n.target)
  {
    if t.kind.Link? {
      TargetIsBalanced(s, t.middle + 2, 0, t.end - 1);
    }
  }

  /** The nodes tile the source: written out, they are the source again. The raw target of every
      link is balanced. They are the nodes of the first-match rule. */
  method RenderInline(source: string) returns (nodes: seq<Node>)
    ensures WrittenAll(nodes) == source
    ensures LinksBalanced(nodes)
    ensures nodes == Nodes(source, 0)
  {
    hide TokenAt, WrittenAll, NodeOf, LinksBalanced, Nodes, NoToken;
    NoNodes();
    nodes := [];
    var last := 0;
    while last < |source|
      invariant last <= |source|
      invariant WrittenAll(nodes) == source[..last] && LinksBalanced(nodes)
      invariant nodes + Nodes(source, last) == Nodes(source, 0)
      decreases |source| - last
    {
      var token := NextInlineToken(source, last);
      if token.None? {
        NodesEnd(source, last);
        LastPlain(source, nodes, last);
        nodes := nodes + [PlainNode(source[last..])];
        return;
      }
      var t := token.value;
      NodesStep(source, last, t);
      PieceIsWritten(source, nodes, last, t);
      Regroup(nodes, Piece(source, last, t), Nodes(source, t.end));
      ghost var before := nodes;
      if t.start > last {
        nodes := nodes + [PlainNode(source[last..t.start])];
      }
      nodes := nodes + [NodeOf(source, t)];
      assert nodes == before + Piece(source, last, t);
      last := t.end;
    }
    NodesOver(source);
    assert source[..last] == source;
    assert nodes + [] == nodes;
  }

  lemma NoNodes()
    ensures WrittenAll([]) == "" && LinksBalanced([])
  {
  }

  lemma NodesOver(s: string)
    ensures Nodes(s, |s|) == []
  {
  }

  lemma Regroup(a: seq<Node>, b: seq<Node>, c: seq<Node>)
    ensures a + (b + c) == (a + b) + c
  {
  }

  lemma LastPlain(s: string, nodes: seq<Node>, last: nat)
    requires last <= |s| && WrittenAll(nodes) == s[..last] && LinksBalanced(nodes)
    ensures WrittenAll(nodes + [PlainNode(s[last..])]) == s && LinksBalanced(nodes + [PlainNode(s[last..])])
  {
    WrittenNext(nodes, PlainNode(s[last..]));
    assert s[..last] + s[last..] == s;
  }

  /** The first index from `from` at which a construct begins, or the end. */
  function FirstToken(s: string, from: nat): (i: nat)
    requires from <= |s|
    ensures from <= i <= |s| && NoToken(s, from, i) && (i < |s| ==> TokenAt(s, i).Some?)
    decreases |s| - from
  {
    if from == |s| || TokenAt(s, from).Some? then from else FirstToken(s, from + 1)
  }

  function Piece(s: string, last: nat, t: Token): seq<Node>
    requires last <= t.start < t.end <= |s| && TokenAt(s, t.start) == Some(t)
  {
    (if t.start > last then [PlainNode(s[last..t.start])] else []) + [NodeOf(s, t)]
  }

  /** The nodes by the first-match rule: plain text up to the first construct, the construct, and
      so on from its end. */
  function Nodes(s: string, last: nat): seq<Node>
    requires last <= |s|
    decreases |s| - last
  {
    if last == |s| then []
    else
      var i := FirstToken(s, last);
      if i == |s| then [PlainNode(s[last..])]
      else var t := TokenAt(s, i).value; Piece(s, last, t) + Nodes(s, t.end)
  }

  lemma NodesEnd(s: string, last: nat)
    requires last < |s| && NoToken(s, last, |s|)
    ensures Nodes(s, last) == [PlainNode(s[last..])]
  {
  }

  lemma NodesStep(s: string, last: nat, t: Token)
    requires last <= t.start < |s| && TokenAt(s, t.start) == Some(t) && NoToken(s, last, t.start)
    ensures Nodes(s, last) == Piece(s, last, t) + Nodes(s, t.end)
  {
    var i := FirstToken(s, last);
    assert i == t.start;
  }
}
