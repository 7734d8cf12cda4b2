/** The inline constructs by what is written: a text is read as a link, code, strong or emphasis
    exactly if it is written as one. */
module MarkdownWritten {
  import opened Wrappers
  import opened MarkdownInline

  /** What the text of a node must be like, for the node to be read where it is written: a label
      without a bracket, a balanced target; code without a backtick; strong text that is not empty,
      with no two asterisks before its end; emphasis that is not empty and without an asterisk. */
  predicate Fits(n: Node) {
    match n
    case PlainNode(_) => false
    case LinkNode(text, target) => ']' !in text && Balanced(target)
    case CodeNode(text) => '`' !in text
    case StrongNode(text) => text != "" && forall j: nat | j < |text| :: !At(text + "**", "**", j)
    case EmNode(text) => text != "" && '*' !in text
  }

  /** The construct at `i` is read as `n`. */
  predicate ReadsAs(s: string, i: nat, n: Node) {
    TokenAt(s, i).Some? && NodeOf(s, TokenAt(s, i).value) == n
  }

  // ----- places in a written text -----

  lemma IndexIs(s: string, p: string, from: nat, i: nat)
    requires from <= i && At(s, p, i) && forall j: nat | from <= j < i :: !At(s, p, j)
    ensures IndexFrom(s, p, from) == i
  {
  }

  lemma SliceOfSlice(s: string, i: nat, n: nat, j: nat, m: nat)
    requires i + n <= |s| && j + m <= n
    ensures s[i..i + n][j..j + m] == s[i + j..i + j + m]
  {
    var a, b := s[i..i + n][j..j + m], s[i + j..i + j + m];
    forall x | 0 <= x < m ensures a[x] == b[x] {
      assert a[x] == s[i..i + n][j + x];
    }
  }

  /** What stands in a text that stands at `i`. */
  lemma Inside(s: string, w: string, i: nat, p: string, j: nat)
    requires At(s, w, i) && j + |p| <= |w|
    ensures At(s, p, i + j) <==> At(w, p, j)
  {
    SliceOfSlice(s, i, |w|, j, |p|);
  }

  /** A character that a text does not hold is found right after it. */
  lemma FoundAfter(s: string, i: nat, t: string, c: char)
    requires At(s, t + [c], i) && c !in t
    ensures IndexFrom(s, [c], i) == i + |t|
  {
    var w := t + [c];
    Inside(s, w, i, [c], |t|);
    forall j: nat | i <= j < i + |t| ensures !At(s, [c], j) {
      Inside(s, w, i, [c], j - i);
      assert w[j - i..j - i + 1] == [t[j - i]] && t[j - i] in t;
    }
    IndexIs(s, [c], i, i + |t|);
  }

  /** And what is found right after a text is not in it. */
  lemma NotBefore(s: string, i: nat, e: nat, c: char)
    requires i <= e <= |s| && forall j: nat | i <= j < e :: !At(s, [c], j)
    ensures c !in s[i..e]
  {
    forall k | 0 <= k < e - i ensures s[i..e][k] != c {
      AtOne(s, c, i + k);
    }
  }

  lemma Parts(s: string, i: nat, a: string, b: string)
    requires At(s, a + b, i)
    ensures At(s, a, i) && At(s, b, i + |a|) && i + |a| <= |s|
    ensures s[i..i + |a|] == a && s[i + |a|..i + |a| + |b|] == b
  {
    var w := a + b;
    Inside(s, w, i, a, 0);
    Inside(s, w, i, b, |a|);
    assert w[..|a|] == a && w[|a|..] == b;
  }

  // ----- written, so read -----

  lemma CodeReads(s: string, i: nat, text: string)
    requires At(s, Written(CodeNode(text)), i) && '`' !in text
    ensures ReadsAs(s, i, CodeNode(text))
  {
    assert Written(CodeNode(text)) == "`" + (text + "`");
    Parts(s, i, "`", text + "`");
    FoundAfter(s, i + 1, text, '`');
    Parts(s, i + 1, text, "`");
    AtOne(s, '[', i);
    hide IndexFrom;
    assert TryCode(s, i) == Some(Token(i, i + 1 + |text| + 1, Code, i));
  }

  /** An asterisk begins no link and no code. */
  lemma OnlyStars(s: string, i: nat)
    requires i < |s| && s[i] == '*'
    ensures TryLink(s, i).None? && TryCode(s, i).None?
  {
    AtOne(s, '[', i);
    AtOne(s, '`', i);
  }

  lemma EmReads(s: string, i: nat, text: string)
    requires At(s, Written(EmNode(text)), i) && text != "" && '*' !in text
    ensures ReadsAs(s, i, EmNode(text))
  {
    assert Written(EmNode(text)) == "*" + (text + "*");
    Parts(s, i, "*", text + "*");
    FoundAfter(s, i + 1, text, '*');
    Parts(s, i + 1, text, "*");
    hide IndexFrom;
    OneStar(s, i, text);
    assert TryEm(s, i) == Some(Token(i, i + 1 + |text| + 1, Em, i));
  }

  lemma OneStar(s: string, i: nat, text: string)
    requires At(s, "*", i) && At(s, text, i + 1) && text != "" && '*' !in text
    ensures TryLink(s, i).None? && TryCode(s, i).None? && TryStrong(s, i).None? && !At(s, "*", i + 1)
  {
    AtOne(s, '*', i);
    AtOne(s, '*', i + 1);
    assert s[i + 1..i + 1 + |text|][0] == text[0] && text[0] in text;
    OnlyStars(s, i);
    TwoStars(s, i);
  }

  lemma TwoStars(s: string, i: nat)
    ensures At(s, "**", i) ==> s[i] == '*' && s[i + 1] == '*'
  {
    if At(s, "**", i) {
      assert s[i..i + 2][0] == s[i] && s[i..i + 2][1] == s[i + 1];
    }
  }

  lemma StrongReads(s: string, i: nat, text: string)
    requires At(s, Written(StrongNode(text)), i) && Fits(StrongNode(text))
    ensures ReadsAs(s, i, StrongNode(text))
  {
    var rest := text + "**";
    assert Written(StrongNode(text)) == "**" + rest;
    Parts(s, i, "**", rest);
    Parts(s, i + 2, text, "**");
    forall j: nat | i + 2 <= j < i + 2 + |text| ensures !At(s, "**", j) {
      Inside(s, rest, i + 2, "**", j - (i + 2));
    }
    IndexIs(s, "**", i + 2, i + 2 + |text|);
    StrongIs(s, i, i + 2 + |text|);
  }

  lemma StrongIs(s: string, i: nat, e: nat)
    requires At(s, "**", i) && IndexFrom(s, "**", i + 2) == e && i + 2 < e
    ensures ReadsAs(s, i, StrongNode(s[i + 2..e]))
  {
    hide IndexFrom;
    TwoStars(s, i);
    OnlyStars(s, i);
    assert TryStrong(s, i) == Some(Token(i, e + 2, Strong, i));
  }

  /** The places of a written link. */
  lemma LinkParts(s: string, i: nat, text: string, target: string)
    requires At(s, Written(LinkNode(text, target)), i)
    ensures var m := i + 1 + |text|;
            At(s, "[", i) && At(s, text + "]", i + 1) && At(s, "(", m + 1) && At(s, target + ")", m + 2)
  {
    var m, tail := i + 1 + |text|, target + ")";
    var head, rest := text + "]", "(" + tail;
    assert Written(LinkNode(text, target)) == "[" + (head + rest);
    assert |head| == |text| + 1;
    hide At, Written;
    Parts(s, i, "[", head + rest);
    Parts(s, i + 1, head, rest);
    Parts(s, m + 1, "(", tail);
  }

  lemma LinkReads(s: string, i: nat, text: string, target: string)
    requires At(s, Written(LinkNode(text, target)), i) && ']' !in text && Balanced(target)
    ensures ReadsAs(s, i, LinkNode(text, target))
  {
    hide At, Written, IndexFrom, TargetEnd, Balanced, ReadsAs;
    var m := i + 1 + |text|;
    LinkParts(s, i, text, target);
    FoundAfter(s, i + 1, text, ']');
    TargetReads(s, m + 2, target);
    Parts(s, i + 1, text, "]");
    Parts(s, m + 2, target, ")");
    LinkIs(s, i, m, m + 2 + |target|);
  }

  lemma LinkIs(s: string, i: nat, m: nat, e: nat)
    requires At(s, "[", i) && IndexFrom(s, "]", i + 1) == m && At(s, "(", m + 1) && TargetEnd(s, m + 2, 0) == e
    ensures m + 2 <= e && ReadsAs(s, i, LinkNode(s[i + 1..m], s[m + 2..e]))
  {
    hide IndexFrom, TargetEnd;
    assert TryLink(s, i) == Some(Token(i, e + 1, Link, m));
  }

  lemma TargetReads(s: string, from: nat, target: string)
    requires At(s, target + ")", from) && Balanced(target)
    ensures TargetEnd(s, from, 0) == from + |target|
  {
    Parts(s, from, target, ")");
    var e := from + |target|;
    AtOne(s, ')', e);
    assert EndsTarget(s, from, 0, e);
    TargetIsBalanced(s, from, 0, e);
  }

  // ----- read, so written -----

  lemma ReadFits(s: string, i: nat)
    requires TokenAt(s, i).Some?
    ensures var n := NodeOf(s, TokenAt(s, i).value); At(s, Written(n), i) && Fits(n)
  {
    NodeIsWritten(s, i);
    NodeFits(s, i);
  }

  lemma NodeFits(s: string, i: nat)
    requires TokenAt(s, i).Some?
    ensures Fits(NodeOf(s, TokenAt(s, i).value))
  {
    hide TokenAt, IndexFrom, Balanced;
    var t := TokenAt(s, i).value;
    TargetBalanced(s, t);
    OfKind(s, i);
    match t.kind
    case Link => LinkFits(s, i);
    case Code => NotBefore(s, i + 1, t.end - 1, '`');
    case Strong => StrongFits(s, i);
    case Em => NotBefore(s, i + 1, t.end - 1, '*');
  }

  lemma LinkFits(s: string, i: nat)
    requires TryLink(s, i).Some?
    ensures ']' !in s[i + 1..TryLink(s, i).value.middle]
  {
    NotBefore(s, i + 1, TryLink(s, i).value.middle, ']');
  }

  lemma StrongFits(s: string, i: nat)
    requires TryStrong(s, i).Some?
    ensures Fits(StrongNode(s[i + 2..TryStrong(s, i).value.end - 2]))
  {
    var e := TryStrong(s, i).value.end - 2;
    var text := s[i + 2..e];
    var rest := text + "**";
    assert s[e..e + 2] == "**";
    assert s[i + 2..e + 2] == rest;
    forall j: nat | j < |text| ensures !At(rest, "**", j) {
      Inside(s, rest, i + 2, "**", j);
    }
  }

  /** At any place of any text: a construct is read as a node exactly if that node is written there,
      and its text is such as it may be. */
  lemma ReadIffWritten(s: string, i: nat, n: Node)
    ensures ReadsAs(s, i, n) <==> At(s, Written(n), i) && Fits(n)
  {
    if ReadsAs(s, i, n) {
      ReadFits(s, i);
    }
    if At(s, Written(n), i) && Fits(n) {
      match n
      case LinkNode(text, target) => LinkReads(s, i, text, target);
      case CodeNode(text) => CodeReads(s, i, text);
      case StrongNode(text) => StrongReads(s, i, text);
      case EmNode(text) => EmReads(s, i, text);
    }
  }
}
