/** The browser's CSV reader for user files (`parseCSVData`, identical in
    userManager.js, modules/userCSVHandler.js and script.js): a line scanner
    that differs from the backend one, followed by the same field scanner and
    the same projection onto users. */
module FrontendCsv {
  import opened Text
  import opened CsvParser

  /** The browser line scanner, from the state (`inQ`, `cur`, `lines`) reached
      so far, run over the rest `s` of the file. Only an LF outside quotes ends
      a line; every finished line is kept, blank or not; a CR is an ordinary
      character; the last line is kept only when it is not empty. */
  function ScanRawLines(s: string, inQ: bool, cur: string, lines: seq<string>): seq<string>
    decreases |s|
  {
    if s == [] then (if cur != "" then lines + [cur] else lines)
    else if s[0] == '"' then
      if inQ && |s| > 1 && s[1] == '"' then ScanRawLines(s[2..], inQ, cur + ['"'], lines)
      else ScanRawLines(s[1..], !inQ, cur, lines)
    else if s[0] == '\n' && !inQ then ScanRawLines(s[1..], false, "", lines + [cur])
    else ScanRawLines(s[1..], inQ, cur + [s[0]], lines)
  }

  function RawLines(csv: string): seq<string> {
    ScanRawLines(csv, false, "", [])
  }

  /** The line loop at the head of `parseCSVData`. */
  method SplitRawLines(csv: string) returns (lines: seq<string>)
    ensures lines == RawLines(csv)
  {
    lines := [];
    var cur := "";
    var inQ := false;
    var i := 0;
    while i < |csv|
      invariant 0 <= i <= |csv|
      invariant ScanRawLines(csv[i..], inQ, cur, lines) == RawLines(csv)
    {
      var c := csv[i];
      assert csv[i..][1..] == csv[i + 1..];
      if c == '"' {
        if inQ && i + 1 < |csv| && csv[i + 1] == '"' {
          assert csv[i..][2..] == csv[i + 2..];
          cur := cur + ['"'];
          i := i + 1;
        } else {
          inQ := !inQ;
        }
      } else if c == '\n' && !inQ {
        lines := lines + [cur];
        cur := "";
      } else {
        cur := cur + [c];
      }
      i := i + 1;
    }
    if cur != "" {
      lines := lines + [cur];
    }
  }

  /** The users the browser reader finds in a file. */
  function BrowserParsedUsers(csv: string): seq<Identity> {
    UsersOfLines(RawLines(csv))
  }

  /** The users of a file's lines: none without a data line, otherwise the
      data lines projected through the header line's keys. */
  function UsersOfLines(lines: seq<string>): seq<Identity> {
    if |lines| < 2 then [] else UsersOf(HeaderKeys(SplitFields(lines[0])), lines[1..])
  }

  /** `parseCSVData` of the browser copies. */
  method ParseCSVData(csv: string) returns (users: seq<Identity>)
    ensures users == BrowserParsedUsers(csv)
  {
    var lines := SplitRawLines(csv);
    users := ReadUsers(lines);
  }

  /** Everything `parseCSVData` does after splitting the lines. */
  method ReadUsers(lines: seq<string>) returns (users: seq<Identity>)
    ensures users == UsersOfLines(lines)
  {
    if |lines| < 2 {
      users := [];
    } else {
      var cells := ParseCSVLine(lines[0]);
      var headers := HeaderKeys(cells);
      users := CollectUsers(headers, lines[1..]);
    }
  }

  /** Fewer than two lines give no users; every user the browser reader
      returns has a set, trimmed e-mail, login id and name. */
  lemma BrowserParsedUsersComplete(csv: string)
    ensures var users := BrowserParsedUsers(csv);
      (|RawLines(csv)| < 2 ==> users == []) &&
      forall k :: 0 <= k < |users| ==> Complete(users[k])
  {
    var lines := RawLines(csv);
    if |lines| >= 2 {
      UsersOfComplete(HeaderKeys(SplitFields(lines[0])), lines[1..]);
    }
  }

  // One step of the browser line scanner at a time.

  lemma RawStepChar(c: char, rest: string, inQ: bool, cur: string, lines: seq<string>)
    requires c != '"' && (c != '\n' || inQ)
    ensures ScanRawLines([c] + rest, inQ, cur, lines) == ScanRawLines(rest, inQ, cur + [c], lines)
  {
    assert ([c] + rest)[1..] == rest;
  }

  lemma RawStepBreak(rest: string, cur: string, lines: seq<string>)
    ensures ScanRawLines("\n" + rest, false, cur, lines) == ScanRawLines(rest, false, "", lines + [cur])
  {
    assert ("\n" + rest)[1..] == rest;
  }

  /** Text with no quote and no LF is copied into the current line as it is,
      carriage returns included. */
  lemma {:induction false} PlainTextStaysInRawLine(t: string, rest: string, cur: string, lines: seq<string>)
    requires '"' !in t && '\n' !in t
    ensures ScanRawLines(t + rest, false, cur, lines) == ScanRawLines(rest, false, cur + t, lines)
    decreases |t|
  {
    if t != [] {
      NotInTail(t, '"');
      NotInTail(t, '\n');
      ConcatHead(t, rest);
      RawStepChar(t[0], t[1..] + rest, false, cur, lines);
      PlainTextStaysInRawLine(t[1..], rest, cur + [t[0]], lines);
      AppendHead(cur, t);
    } else {
      assert t + rest == rest && cur + t == cur;
    }
  }

  /** A line the browser scanner passes through unchanged. */
  predicate RawPlainLine(l: string) {
    '"' !in l && '\n' !in l && l != ""
  }

  lemma {:induction false} RawLinesRoundTrip(ls: seq<string>, lines: seq<string>)
    requires forall k :: 0 <= k < |ls| ==> RawPlainLine(ls[k])
    ensures ScanRawLines(JoinWith(ls, "\n"), false, "", lines) == lines + ls
    decreases |ls|
  {
    if ls == [] {
      assert lines + ls == lines;
    } else if |ls| == 1 {
      assert ls == [ls[0]];
      PlainTextStaysInRawLine(ls[0], "", "", lines);
      assert ls[0] + "" == ls[0];
      EmptyPrefix(ls[0]);
    } else {
      var tail := JoinWith(ls[1..], "\n");
      JoinCons(ls, "\n");
      assert RawPlainLine(ls[0]);
      PlainTextStaysInRawLine(ls[0], "\n" + tail, "", lines);
      EmptyPrefix(ls[0]);
      RawStepBreak(tail, ls[0], lines);
      RawLinesRoundTrip(ls[1..], lines + [ls[0]]);
      AppendHead(lines, ls);
    }
  }

  /** Non-empty lines with no quote and no LF, joined by LF, are the lines the
      browser scanner finds, carriage returns and blank-looking lines
      included. */
  lemma RawLinesOfJoin(ls: seq<string>)
    requires forall k :: 0 <= k < |ls| ==> RawPlainLine(ls[k])
    ensures RawLines(JoinWith(ls, "\n")) == ls
  {
    RawLinesRoundTrip(ls, []);
    assert [] + ls == ls;
  }

  /** Where the two line scanners part on CR LF line ends: the browser keeps
      the CR at the end of the first line, the backend drops it. */
  lemma CrLfLineEnds(a: string, b: string)
    requires PlainLine(a) && PlainLine(b)
    ensures RawLines(a + "\r\n" + b) == [a + "\r", b]
    ensures LogicalLines(a + "\r\n" + b) == [a, b]
  {
    TrimEmpty();
    RawCrLf(a, b);
    LogicalCrLf(a, b);
  }

  lemma RawCrLf(a: string, b: string)
    requires '"' !in a && '\n' !in a && RawPlainLine(b)
    ensures RawLines(a + "\r\n" + b) == [a + "\r", b]
  {
    var x := a + "\r";
    assert RawPlainLine(x) by {
      assert x[|x| - 1] == '\r';
    }
    assert x + "\n" + b == a + "\r\n" + b;
    RawTwoLines(x, b);
  }

  /** Two lines joined by LF. */
  lemma RawTwoLines(x: string, y: string)
    requires RawPlainLine(x) && RawPlainLine(y)
    ensures RawLines(x + "\n" + y) == [x, y]
  {
    var ls := [x, y];
    assert JoinWith(ls[1..], "\n") == y;
    RawLinesOfJoin(ls);
  }

  lemma LogicalCrLf(a: string, b: string)
    requires PlainLine(a) && PlainLine(b)
    ensures LogicalLines(a + "\r\n" + b) == [a, b]
  {
    var ls := [a, b];
    assert JoinWith(ls[1..], "\r\n") == b;
    assert JoinWith(ls, "\r\n") == a + "\r\n" + b;
    LogicalLinesOfJoin(ls, "\r\n");
  }

  /** Where the two line scanners part on a line of spaces: the browser keeps
      it, the backend drops it. */
  lemma SpaceLineBetween(a: string, w: string, b: string)
    requires PlainLine(a) && PlainLine(b)
    requires w != "" && AllSpace(w) && '\n' !in w && '\r' !in w
    ensures RawLines(a + "\n" + w + "\n" + b) == [a, w, b]
    ensures LogicalLines(a + "\n" + w + "\n" + b) == [a, b]
  {
    assert a + "\n" + w + "\n" + b == JoinWith([a, w, b], "\n") by {
      JoinCons([a, w, b], "\n");
      JoinCons([w, b], "\n");
    }
    RawLinesOfJoin([a, w, b]);
    BlankIffAllSpace(w);
    BackendDropsBlank(a, w, b);
  }

  lemma BackendDropsBlank(a: string, w: string, b: string)
    requires PlainLine(a) && PlainLine(b)
    requires IsBlank(w) && '"' !in w && '\n' !in w && '\r' !in w
    ensures LogicalLines(a + "\n" + w + "\n" + b) == [a, b]
  {
    Regroup5(a, "\n", w, "\n", b);
    BlankBetween(a, w, b);
  }

  /** The same, with the text grouped the way the scanner reads it. */
  lemma BlankBetween(a: string, w: string, b: string)
    requires PlainLine(a) && PlainLine(b)
    requires IsBlank(w) && '"' !in w && '\n' !in w && '\r' !in w
    ensures ScanLines(a + ("\n" + (w + ("\n" + b))), false, "", []) == [a, b]
  {
    FirstLineKept(a, w + ("\n" + b));
    BlankThenLast(a, w, b);
  }

  lemma FirstLineKept(a: string, rest: string)
    requires PlainLine(a)
    ensures ScanLines(a + ("\n" + rest), false, "", []) == ScanLines(rest, false, "", [a])
  {
    LineThenBreak(a, rest, []);
    assert Emit([], a) == [a];
  }

  lemma BlankThenLast(a: string, w: string, b: string)
    requires PlainLine(b)
    requires IsBlank(w) && '"' !in w && '\n' !in w && '\r' !in w
    ensures ScanLines(w + ("\n" + b), false, "", [a]) == [a, b]
  {
    LineThenBreak(w, b, [a]);
    LastLine(b, [a]);
    PairConcat(a, b);
  }

  /** A line with no quote or line break, then an LF, outside quotes. */
  lemma LineThenBreak(l: string, rest: string, lines: seq<string>)
    requires '"' !in l && '\n' !in l && '\r' !in l
    ensures ScanLines(l + ("\n" + rest), false, "", lines) == ScanLines(rest, false, "", Emit(lines, l))
  {
    PlainTextStaysInLine(l, "\n" + rest, false, "", lines);
    EmptyPrefix(l);
    LineStepBreak("\n", rest, l, lines);
  }

  /** A last line with no quote or line break. */
  lemma LastLine(l: string, lines: seq<string>)
    requires '"' !in l && '\n' !in l && '\r' !in l
    ensures ScanLines(l, false, "", lines) == Emit(lines, l)
  {
    assert l == l + "";
    PlainTextStaysInLine(l, "", false, "", lines);
    EmptyPrefix(l);
  }

  lemma RenderedRawLines(us: seq<Identity>)
    requires forall k :: 0 <= k < |us| ==> PlainUser(us[k])
    ensures RawLines(RenderUsers(us)) == [JoinWith(HeaderCells, ",")] + RowLines(us)
  {
    var lines := [JoinWith(HeaderCells, ",")] + RowLines(us);
    RenderedLinesPlain(us);
    forall k | 0 <= k < |lines| ensures RawPlainLine(lines[k]) {
      assert PlainLine(lines[k]);
      assert lines[k] != "" by {
        TrimEmpty();
      }
    }
    RawLinesOfJoin(lines);
  }

  /** The browser reader, like the backend one, reads back exactly the users
      a file was written from when no field needs quoting. */
  lemma BrowserParseRenderedUsers(us: seq<Identity>)
    requires forall k :: 0 <= k < |us| ==> PlainUser(us[k])
    ensures BrowserParsedUsers(RenderUsers(us)) == us
  {
    var lines := [JoinWith(HeaderCells, ",")] + RowLines(us);
    RenderedRawLines(us);
    HeaderLineFields();
    assert lines[1..] == RowLines(us);
    UsersOfRendered(us);
  }
}
