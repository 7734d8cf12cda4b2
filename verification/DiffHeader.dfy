/** The hunk header of a unified diff ("@@ -a,b +c,d @@"), as the regular expressions of
    DocumentPreviewPanel.tsx and ChatTimeline.tsx read it and as git prints it. */
module DiffHeader {
  import opened Wrappers

  predicate IsDigit(c: char) {
    '0' <= c <= '9'
  }

  /** The digits at the front of s: the greedy `\d+`, which here never backtracks because
      what may follow it is not a digit. */
  function DigitRun(s: string): (n: nat)
    ensures n <= |s|
    ensures forall i | 0 <= i < n :: IsDigit(s[i])
    ensures n < |s| ==> !IsDigit(s[n])
  {
    if s == "" || !IsDigit(s[0]) then 0 else 1 + DigitRun(s[1..])
  }

  /** `Number(digits)`. */
  function Value(digits: string): nat
    requires forall i | 0 <= i < |digits| :: IsDigit(digits[i])
  {
    if digits == "" then 0
    else
      var last := digits[|digits| - 1];
      assert IsDigit(last);
      10 * Value(digits[..|digits| - 1]) + (last as int - '0' as int)
  }

  function Decimal(n: nat): (s: string)
    ensures s != ""
    ensures forall i | 0 <= i < |s| :: IsDigit(s[i])
  {
    var d := [('0' as int + n % 10) as char];
    if n < 10 then d else Decimal(n / 10) + d
  }

  lemma {:induction false} ValueDecimal(n: nat)
    ensures Value(Decimal(n)) == n
  {
    var s := Decimal(n);
    if n >= 10 {
      ValueDecimal(n / 10);
      assert s[..|s| - 1] == Decimal(n / 10);
    } else {
      assert s[..|s| - 1] == "";
    }
  }

  lemma {:induction false} DigitRunStops(d: string, rest: string)
    requires forall i | 0 <= i < |d| :: IsDigit(d[i])
    requires rest != "" ==> !IsDigit(rest[0])
    ensures DigitRun(d + rest) == |d|
    decreases |d|
  {
    if d == "" {
      assert d + rest == rest;
    } else {
      assert (d + rest)[1..] == d[1..] + rest;
      DigitRunStops(d[1..], rest);
    }
  }

  /** One side of the header: the start, the count (1 when absent), and the text after it. */
  datatype Side = Side(start: nat, count: nat, rest: string)

  /** `(\d+)(?:,(\d+))?`, and with `redaction` also `<redacted>` in the place of the count. */
  function ReadSide(s: string, redaction: bool): Option<Side> {
    var n := DigitRun(s);
    if n == 0 then None
    else
      var after := s[n..];
      if after == "" || after[0] != ',' then Some(Side(Value(s[..n]), 1, after))
      else
        var k := DigitRun(after[1..]);
        if k > 0 then Some(Side(Value(s[..n]), Value(after[1..][..k]), after[1..][k..]))
        else if redaction && ",<redacted>" <= after then Some(Side(Value(s[..n]), 0, after[|",<redacted>"|..]))
        else None
  }

  datatype Header = Header(oldStart: nat, oldCount: nat, newStart: nat, newCount: nat)

  /** From the space before the "+" on. */
  function ReadNewSide(left: Side, redaction: bool): Option<Header> {
    if !(" +" <= left.rest) then None
    else
      match ReadSide(left.rest[2..], redaction)
      case None => None
      case Some(right) =>
        if " @@" <= right.rest then Some(Header(left.start, left.count, right.start, right.count)) else None
  }

  function ReadHeader(line: string, redaction: bool): Option<Header> {
    if !("@@ -" <= line) then None
    else
      match ReadSide(line[4..], redaction)
      case None => None
      case Some(left) => ReadNewSide(left, redaction)
  }

  /** git leaves a count of one out. */
  function PrintSide(start: nat, count: nat): string {
    Decimal(start) + (if count == 1 then "" else "," + Decimal(count))
  }

  function PrintHeader(h: Header, heading: string): string {
    "@@ -" + (PrintSide(h.oldStart, h.oldCount) + (" +" + (PrintSide(h.newStart, h.newCount) + (" @@" + heading))))
  }

  lemma ReadPrintedSide(start: nat, count: nat, rest: string, redaction: bool)
    requires rest != "" && rest[0] == ' '
    ensures ReadSide(PrintSide(start, count) + rest, redaction) == Some(Side(start, count, rest))
  {
    var d, s := Decimal(start), PrintSide(start, count) + rest;
    ValueDecimal(start);
    if count == 1 {
      assert s == d + rest;
      NumberStops(d, rest);
    } else {
      var e := Decimal(count);
      ValueDecimal(count);
      var after := "," + (e + rest);
      assert s == d + after;
      NumberStops(d, after);
      Dropped(",", e + rest);
      NumberStops(e, rest);
    }
    hide DigitRun, Value, Decimal;
  }

  /** A printed header is read back by both parsers. */
  lemma ReadPrintedHeader(h: Header, heading: string, redaction: bool)
    ensures ReadHeader(PrintHeader(h, heading), redaction) == Some(h)
  {
    var tail := " @@" + heading;
    var new_ := PrintSide(h.newStart, h.newCount) + tail;
    var mid := " +" + new_;
    var old_ := PrintSide(h.oldStart, h.oldCount) + mid;
    var line := PrintHeader(h, heading);
    Dropped("@@ -", old_);
    ReadPrintedSide(h.oldStart, h.oldCount, mid, redaction);
    ReadPrintedNewSide(h, heading, redaction);
  }

  lemma Dropped(a: string, b: string)
    ensures a <= a + b && (a + b)[|a|..] == b
  {
  }

  lemma ReadPrintedNewSide(h: Header, heading: string, redaction: bool)
    ensures ReadNewSide(Side(h.oldStart, h.oldCount, " +" + (PrintSide(h.newStart, h.newCount) + (" @@" + heading))), redaction)
         == Some(h)
  {
    var tail := " @@" + heading;
    var new_ := PrintSide(h.newStart, h.newCount) + tail;
    Dropped(" +", new_);
    Dropped(" @@", heading);
    ReadPrintedSide(h.newStart, h.newCount, tail, redaction);
  }

  // ----- what only the review reader reads -----

  const REDACTED := ",<redacted>"

  predicate IsNumber(d: string) {
    d != "" && forall i | 0 <= i < |d| :: IsDigit(d[i])
  }

  /** What may follow a start: nothing, a count, or a redacted count. */
  predicate IsCount(c: string) {
    c == "" || c == REDACTED || (c[0] == ',' && IsNumber(c[1..]))
  }

  /** The pieces of a header, with counts that may be redacted. */
  predicate IsHeader(line: string, d: string, c: string, e: string, k: string, heading: string) {
    && line == "@@ -" + (d + (c + (" +" + (e + (k + (" @@" + heading))))))
    && IsNumber(d) && IsCount(c) && IsNumber(e) && IsCount(k)
  }

  lemma NumberStops(d: string, rest: string)
    requires IsNumber(d) && rest != "" && !IsDigit(rest[0])
    ensures DigitRun(d + rest) == |d| && (d + rest)[..|d|] == d && (d + rest)[|d|..] == rest
  {
    DigitRunStops(d, rest);
  }

  /** The pieces of one side are read; the stricter reader refuses a redacted count, and only that. */
  lemma PiecesRead(d: string, c: string, rest: string)
    requires IsNumber(d) && IsCount(c) && rest != "" && rest[0] == ' '
    ensures var r := ReadSide(d + (c + rest), true);
            && r.Some? && r.value.rest == rest
            && ReadSide(d + (c + rest), false) == if c == REDACTED then None else r
  {
    var after := c + rest;
    NumberStops(d, after);
    if c == REDACTED {
      assert after[1] == '<';
      assert DigitRun(after[1..]) == 0;
      assert REDACTED <= after && after[|REDACTED|..] == rest;
    } else if c != "" {
      assert after[1..] == c[1..] + rest;
      NumberStops(c[1..], rest);
    } else {
      assert after == rest;
    }
  }

  lemma Prefixed(a: string, s: string)
    requires a <= s
    ensures s == a + s[|a|..]
  {
  }

  lemma DropTwice(s: string, i: nat, j: nat)
    requires i + j <= |s|
    ensures s[i..][j..] == s[i + j..]
  {
  }

  /** What follows a start: a count as it is read, and the rest. */
  lemma CountPieces(after: string) returns (c: string)
    requires after != "" && after[0] == ',' && (DigitRun(after[1..]) > 0 || REDACTED <= after)
    ensures IsCount(c) && c <= after
    ensures |c| == if DigitRun(after[1..]) > 0 then 1 + DigitRun(after[1..]) else |REDACTED|
  {
    var k := DigitRun(after[1..]);
    c := if k > 0 then after[..k + 1] else REDACTED;
    if k > 0 {
      assert c[1..] == after[1..][..k];
    }
  }

  /** What the review reader takes for a side is made of such pieces. */
  lemma SideHasPieces(s: string) returns (d: string, c: string)
    requires ReadSide(s, true).Some?
    ensures IsNumber(d) && IsCount(c) && s == d + (c + ReadSide(s, true).value.rest)
  {
    var n := DigitRun(s);
    var after := s[n..];
    d, c := s[..n], "";
    if after != "" && after[0] == ',' {
      c := CountPieces(after);
      DropTwice(after, 1, |c| - 1);
    }
    hide IsCount, Value, DigitRun;
    Prefixed(c, after);
    assert ReadSide(s, true).value.rest == after[|c|..];
    Prefixed(d, s);
  }

  lemma NewSidePieces(left: Side) returns (e: string, k: string, heading: string)
    requires ReadNewSide(left, true).Some?
    ensures IsNumber(e) && IsCount(k) && left.rest == " +" + (e + (k + (" @@" + heading)))
  {
    hide ReadSide, IsNumber, IsCount;
    var s := left.rest[2..];
    Prefixed(" +", left.rest);
    e, k := SideHasPieces(s);
    var rest := ReadSide(s, true).value.rest;
    heading := rest[3..];
    Prefixed(" @@", rest);
  }

  lemma HeaderPieces(line: string) returns (d: string, c: string, e: string, k: string, heading: string)
    requires ReadHeader(line, true).Some?
    ensures IsHeader(line, d, c, e, k, heading)
  {
    hide ReadSide, ReadNewSide, IsNumber, IsCount;
    Prefixed("@@ -", line);
    d, c := SideHasPieces(line[4..]);
    e, k, heading := NewSidePieces(ReadSide(line[4..], true).value);
  }

  lemma HeaderRead(line: string, d: string, c: string, e: string, k: string, heading: string)
    requires IsHeader(line, d, c, e, k, heading)
    ensures ReadHeader(line, true).Some?
    ensures ReadHeader(line, false) == if c == REDACTED || k == REDACTED then None else ReadHeader(line, true)
  {
    hide ReadSide;
    var tail := " @@" + heading;
    var right := e + (k + tail);
    var mid := " +" + right;
    Dropped("@@ -", d + (c + mid));
    PiecesRead(d, c, mid);
    Dropped(" +", right);
    PiecesRead(e, k, tail);
    Dropped(" @@", heading);
  }

  lemma StricterAgrees(line: string)
    ensures ReadHeader(line, false).Some? ==> ReadHeader(line, true) == ReadHeader(line, false)
  {
  }

  /** What the stricter reader takes for a header the review reader reads the same way; and the
      review reader alone reads a line if and only if it is a header with a redacted count. */
  lemma RedactionExtends(line: string)
    ensures ReadHeader(line, false).Some? ==> ReadHeader(line, true) == ReadHeader(line, false)
    ensures ReadHeader(line, true).Some? && ReadHeader(line, false).None? <==>
              exists d, c, e, k, heading :: IsHeader(line, d, c, e, k, heading) && (c == REDACTED || k == REDACTED)
  {
    StricterAgrees(line);
    hide ReadHeader, IsHeader;
    if ReadHeader(line, true).Some? {
      var d, c, e, k, heading := HeaderPieces(line);
      HeaderRead(line, d, c, e, k, heading);
    }
    forall d, c, e, k, heading | IsHeader(line, d, c, e, k, heading)
      ensures ReadHeader(line, true).Some? && (c == REDACTED || k == REDACTED ==> ReadHeader(line, false).None?)
    {
      HeaderRead(line, d, c, e, k, heading);
    }
  }
}
