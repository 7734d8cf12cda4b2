/** Strings as the renderer and the process boundary use them: searching, splitting at a
    line feed, joining, and dropping one trailing carriage return. */
module Text {

  /** `s.indexOf(c)`. */
  function IndexOf(s: string, c: char): (i: int)
    ensures -1 <= i < |s|
    ensures i >= 0 ==> s[i] == c && c !in s[..i]
    ensures i < 0 ==> c !in s
  {
    if s == "" then -1
    else if s[0] == c then 0
    else
      var r := IndexOf(s[1..], c);
      assert s == [s[0]] + s[1..];
      if r < 0 then -1 else assert s[..r + 1] == [s[0]] + s[1..][..r]; r + 1
  }

  /** `line.replace(/\r$/, "")`. */
  function StripCR(s: string): string {
    if s != "" && s[|s| - 1] == '\r' then s[..|s| - 1] else s
  }

  /** `\s` of ECMAScript. */
  predicate IsSpace(c: char) {
    || '\t' <= c <= '\r' || c == ' ' || c == '\U{00A0}' || c == '\U{1680}' || '\U{2000}' <= c <= '\U{200A}'
    || c == '\U{2028}' || c == '\U{2029}' || c == '\U{202F}' || c == '\U{205F}' || c == '\U{3000}' || c == '\U{FEFF}'
  }

  /** `!s.trim()`. */
  predicate IsBlank(s: string) {
    forall c | c in s :: IsSpace(c)
  }

  /** `s.split("\n")`: always at least one piece, no piece holds a line feed. */
  function Split(s: string): (ps: seq<string>)
    ensures |ps| >= 1
    ensures forall p | p in ps :: '\n' !in p
  {
    var i := IndexOf(s, '\n');
    if i < 0 then [s] else [s[..i]] + Split(s[i + 1..])
  }

  /** `ps.join("\n")`. */
  function Join(ps: seq<string>): string {
    if ps == [] then "" else if |ps| == 1 then ps[0] else ps[0] + "\n" + Join(ps[1..])
  }

  lemma CutAt(s: string, i: nat)
    requires i < |s|
    ensures s == s[..i] + [s[i]] + s[i + 1..]
  {
  }

  lemma SplitUnfold(s: string)
    ensures var i := IndexOf(s, '\n');
            Split(s) == if i < 0 then [s] else [s[..i]] + Split(s[i + 1..])
  {
  }

  lemma {:induction false} JoinSplit(s: string)
    ensures Join(Split(s)) == s
    decreases |s|
  {
    var i := IndexOf(s, '\n');
    hide Split, Join, IndexOf;
    SplitUnfold(s);
    if i < 0 {
      JoinOne(s);
    } else {
      JoinSplit(s[i + 1..]);
      JoinCons(s[..i], Split(s[i + 1..]));
      CutAt(s, i);
    }
  }

  lemma JoinOne(s: string)
    ensures Join([s]) == s
  {
  }

  lemma JoinCons(h: string, ps: seq<string>)
    requires ps != []
    ensures Join([h] + ps) == h + "\n" + Join(ps)
  {
    assert ([h] + ps)[1..] == ps;
  }

  lemma IndexOfFirst(s: string, c: char, i: nat)
    requires i < |s| && s[i] == c && c !in s[..i]
    ensures IndexOf(s, c) == i
  {
    var r := IndexOf(s, c);
    assert forall k | 0 <= k < i :: s[..i][k] == s[k];
    assert r >= 0 ==> forall k | 0 <= k < r :: s[..r][k] == s[k];
  }

  lemma SplitHead(a: string, b: string)
    requires '\n' !in a
    ensures Split(a + "\n" + b) == [a] + Split(b)
  {
    var s := a + "\n" + b;
    assert s[..|a|] == a;
    IndexOfFirst(s, '\n', |a|);
    assert s[|a| + 1..] == b;
  }

  lemma SplitPlain(a: string)
    requires '\n' !in a
    ensures Split(a) == [a]
  {
    assert IndexOf(a, '\n') < 0;
  }

  lemma {:induction false} SplitJoin(ps: seq<string>)
    requires ps != []
    requires forall p | p in ps :: '\n' !in p
    ensures Split(Join(ps)) == ps
    decreases |ps|
  {
    assert ps[0] in ps;
    hide Split, Join, IndexOf;
    if |ps| == 1 {
      SplitPlain(ps[0]);
      JoinOne(ps[0]);
      assert ps == [ps[0]];
    } else {
      var rest := ps[1..];
      SplitJoin(rest);
      SplitHead(ps[0], Join(rest));
      assert ps == [ps[0]] + rest;
      JoinCons(ps[0], rest);
    }
  }

  function Front<T>(s: seq<T>): seq<T>
    requires s != []
  {
    s[..|s| - 1]
  }

  function Last<T>(s: seq<T>): T
    requires s != []
  {
    s[|s| - 1]
  }

  lemma SplicedHead(h: string, l: seq<string>, x: seq<string>, whole: seq<string>)
    requires l != [] && whole == Front(l) + x
    ensures [h] + whole == Front([h] + l) + x && Last([h] + l) == Last(l)
  {
    assert Front([h] + l) == [h] + Front(l);
  }

  /** Splitting a concatenation: the last piece of the left part is continued by the right part. */
  lemma {:induction false} SplitConcat(a: string, b: string)
    ensures Split(a + b) == Front(Split(a)) + Split(Last(Split(a)) + b)
    decreases |a|
  {
    var i := IndexOf(a, '\n');
    if i < 0 {
      SplitPlain(a);
      var whole := Split(a + b);
      assert Front([a]) == [];
      assert [] + whole == whole;
    } else {
      var h, t := a[..i], a[i + 1..];
      assert a == h + "\n" + t;
      assert a + b == h + "\n" + (t + b);
      SplitHead(h, t);
      SplitHead(h, t + b);
      SplitConcat(t, b);
      SplicedHead(h, Split(t), Split(Last(Split(t)) + b), Split(t + b));
    }
  }

  /** The lines already ended by a line feed, and the unfinished rest. */
  function Complete(s: string): seq<string> {
    Front(Split(s))
  }

  function Rest(s: string): (r: string)
    ensures '\n' !in r
  {
    assert Last(Split(s)) in Split(s);
    Last(Split(s))
  }

  /** Feeding a longer stream: what is complete so far stays, the rest is continued. */
  lemma {:induction false} CompleteStep(a: string, b: string)
    ensures Complete(a + b) == Complete(a) + Complete(Rest(a) + b)
    ensures Rest(a + b) == Rest(Rest(a) + b)
  {
    SplitConcat(a, b);
    var l, r := Front(Split(a)), Split(Rest(a) + b);
    assert Front(l + r) == l + Front(r);
    assert Last(l + r) == Last(r);
  }

  /** Cutting the first line off. */
  lemma CutFirst(s: string)
    ensures var i := IndexOf(s, '\n');
            if i < 0 then Complete(s) == [] && Rest(s) == s
            else Complete(s) == [s[..i]] + Complete(s[i + 1..]) && Rest(s) == Rest(s[i + 1..])
  {
    var i := IndexOf(s, '\n');
    if i >= 0 {
      SplicedHead(s[..i], Split(s[i + 1..]), [], Front(Split(s[i + 1..])));
      assert Split(s) == [s[..i]] + Split(s[i + 1..]);
    }
  }

  function StripAll(ps: seq<string>): seq<string> {
    if ps == [] then [] else [StripCR(ps[0])] + StripAll(ps[1..])
  }

  lemma StripAllCons(p: string, ps: seq<string>)
    ensures StripAll([p] + ps) == [StripCR(p)] + StripAll(ps)
  {
    assert ([p] + ps)[1..] == ps;
  }

  lemma {:induction false} StripAllConcat(a: seq<string>, b: seq<string>)
    ensures StripAll(a + b) == StripAll(a) + StripAll(b)
    decreases |a|
  {
    if a == [] {
      assert a + b == b;
    } else {
      assert (a + b)[1..] == a[1..] + b;
      StripAllConcat(a[1..], b);
    }
  }

  /** A text of whole lines, each ended by a line feed. */
  function Terminated(lines: seq<string>): string {
    if lines == [] then "" else lines[0] + "\n" + Terminated(lines[1..])
  }

  lemma {:induction false} SplitTerminated(lines: seq<string>)
    requires forall l | l in lines :: '\n' !in l
    ensures Split(Terminated(lines)) == lines + [""]
    decreases |lines|
  {
    if lines == [] {
      SplitPlain("");
    } else {
      assert lines[0] in lines;
      SplitTerminated(lines[1..]);
      SplitHead(lines[0], Terminated(lines[1..]));
      assert [lines[0]] + (lines[1..] + [""]) == lines + [""];
    }
  }
}
