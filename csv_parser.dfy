/** The backend CSV reader for user files: a logical-line scanner, a
    quote-aware field scanner and the projection of each row onto a user
    identity (e-mail, login id, name).

    Each scanner is a method with the same index loop as the original, proved
    against a recursive specification function that consumes the input one
    step at a time. The field scanner here is also, character for character,
    the `parseCSVLine` of the three browser copies. */
module CsvParser {
  import opened Text

  /** A user as the CSV readers produce it. */
  datatype Identity = Identity(email: string, loginId: string, name: string)

  // ---------------------------------------------------------------------------
  // Logical lines

  /** Pushes the finished line unless it is blank (`if (currentLine.trim())`). */
  function Emit(lines: seq<string>, cur: string): (r: seq<string>)
    ensures !IsBlank(cur) ==> r == lines + [cur]
    ensures IsBlank(cur) ==> r == lines
  {
    if IsBlank(cur) then lines else lines + [cur]
  }

  /** The line scanner, from the state (`inQ`, `cur`, `lines`) reached so far,
      run over the rest `s` of the input. */
  function ScanLines(s: string, inQ: bool, cur: string, lines: seq<string>): seq<string>
    decreases |s|
  {
    if s == [] then Emit(lines, cur)
    else if s[0] == '"' then
      if inQ && |s| > 1 && s[1] == '"' then ScanLines(s[2..], inQ, cur + ['"'], lines)
      else ScanLines(s[1..], !inQ, cur, lines)
    else if s[0] == '\n' && !inQ then ScanLines(s[1..], false, "", Emit(lines, cur))
    else if s[0] == '\r' && |s| > 1 && s[1] == '\n' && !inQ then ScanLines(s[2..], false, "", Emit(lines, cur))
    else if s[0] != '\r' then ScanLines(s[1..], inQ, cur + [s[0]], lines)
    else ScanLines(s[1..], inQ, cur, lines)
  }

  /** The logical lines of a whole file. */
  function LogicalLines(csv: string): seq<string> {
    ScanLines(csv, false, "", [])
  }

  /** No carriage return anywhere and no whitespace-only line. */
  predicate CleanLines(lines: seq<string>) {
    forall k :: 0 <= k < |lines| ==> '\r' !in lines[k] && !IsBlank(lines[k])
  }

  lemma {:induction false} ScanLinesClean(s: string, inQ: bool, cur: string, lines: seq<string>)
    requires CleanLines(lines) && '\r' !in cur
    ensures CleanLines(ScanLines(s, inQ, cur, lines))
    decreases |s|
  {
    if s == [] {
    } else if s[0] == '"' {
      if inQ && |s| > 1 && s[1] == '"' {
        ScanLinesClean(s[2..], inQ, cur + ['"'], lines);
      } else {
        ScanLinesClean(s[1..], !inQ, cur, lines);
      }
    } else if s[0] == '\n' && !inQ {
      ScanLinesClean(s[1..], false, "", Emit(lines, cur));
    } else if s[0] == '\r' && |s| > 1 && s[1] == '\n' && !inQ {
      ScanLinesClean(s[2..], false, "", Emit(lines, cur));
    } else if s[0] != '\r' {
      ScanLinesClean(s[1..], inQ, cur + [s[0]], lines);
    } else {
      ScanLinesClean(s[1..], inQ, cur, lines);
    }
  }

  /** `parseCSVLines`: splits the file into logical lines. A line ends at an LF
      or a CR LF outside quotes; a lone CR is dropped; a quote toggles quoting
      and is dropped, except that `""` inside quotes stands for one `"`; blank
      lines are not emitted. */
  method ParseCSVLines(csv: string) returns (lines: seq<string>)
    ensures lines == LogicalLines(csv)
    ensures CleanLines(lines)
  {
    lines := [];
    var cur := "";
    var inQ := false;
    var i := 0;
    while i < |csv|
      invariant 0 <= i <= |csv|
      invariant ScanLines(csv[i..], inQ, cur, lines) == LogicalLines(csv)
    {
      var c := csv[i];
      assert csv[i..] == [c] + csv[i + 1..];
      if c == '"' {
        if inQ && i + 1 < |csv| && csv[i + 1] == '"' {
          assert csv[i..] == "\"\"" + csv[i + 2..];
          LineStepQuotePair(csv[i + 2..], cur, lines);
          cur := cur + ['"'];
          i := i + 1;
        } else {
          LineStepToggle(csv[i + 1..], inQ, cur, lines);
          inQ := !inQ;
        }
      } else if c == '\n' && !inQ {
        LineStepLf(csv[i + 1..], cur, lines);
        lines := Emit(lines, cur);
        cur := "";
      } else if c == '\r' && i + 1 < |csv| && csv[i + 1] == '\n' && !inQ {
        assert csv[i..] == "\r\n" + csv[i + 2..];
        LineStepCrLf(csv[i + 2..], cur, lines);
        lines := Emit(lines, cur);
        cur := "";
        i := i + 1;
      } else if c != '\r' {
        LineStepChar(c, csv[i + 1..], inQ, cur, lines);
        cur := cur + [c];
      } else {
        LineStepLoneCr(csv[i + 1..], inQ, cur, lines);
      }
      i := i + 1;
    }
    lines := Emit(lines, cur);
    ScanLinesClean(csv, false, "", []);
  }

  // One step of the line scanner at a time, for the proofs below.

  lemma LineStepChar(c: char, rest: string, inQ: bool, cur: string, lines: seq<string>)
    requires c != '"' && c != '\r' && (c != '\n' || inQ)
    ensures ScanLines([c] + rest, inQ, cur, lines) == ScanLines(rest, inQ, cur + [c], lines)
  {
    assert ([c] + rest)[1..] == rest;
  }

  lemma LineStepQuotePair(rest: string, cur: string, lines: seq<string>)
    ensures ScanLines("\"\"" + rest, true, cur, lines) == ScanLines(rest, true, cur + "\"", lines)
  {
    assert ("\"\"" + rest)[2..] == rest;
  }

  lemma LineStepToggle(rest: string, inQ: bool, cur: string, lines: seq<string>)
    requires !inQ || rest == [] || rest[0] != '"'
    ensures ScanLines("\"" + rest, inQ, cur, lines) == ScanLines(rest, !inQ, cur, lines)
  {
    assert ("\"" + rest)[1..] == rest;
  }

  lemma LineStepLoneCr(rest: string, inQ: bool, cur: string, lines: seq<string>)
    requires inQ || rest == [] || rest[0] != '\n'
    ensures ScanLines("\r" + rest, inQ, cur, lines) == ScanLines(rest, inQ, cur, lines)
  {
    assert ("\r" + rest)[1..] == rest;
  }

  lemma LineStepBreak(sep: string, rest: string, cur: string, lines: seq<string>)
    requires sep == "\n" || sep == "\r\n"
    ensures ScanLines(sep + rest, false, cur, lines) == ScanLines(rest, false, "", Emit(lines, cur))
  {
    if sep == "\n" {
      LineStepLf(rest, cur, lines);
    } else {
      LineStepCrLf(rest, cur, lines);
    }
  }

  lemma LineStepLf(rest: string, cur: string, lines: seq<string>)
    ensures ScanLines("\n" + rest, false, cur, lines) == ScanLines(rest, false, "", Emit(lines, cur))
  {
    var s := "\n" + rest;
    assert s[0] == '\n' && s[1..] == rest;
  }

  lemma LineStepCrLf(rest: string, cur: string, lines: seq<string>)
    ensures ScanLines("\r\n" + rest, false, cur, lines) == ScanLines(rest, false, "", Emit(lines, cur))
  {
    var s := "\r\n" + rest;
    assert s[0] == '\r' && |s| > 1 && s[1] == '\n' && s[2..] == rest;
  }

  /** Text between two quotes that the scanners return unchanged: every `"`
      doubled, as section 2 (rule 7) of RFC 4180 asks. */
  function Escape(f: string): (r: string)
    ensures |r| >= |f|
  {
    if f == [] then ""
    else if f[0] == '"' then "\"\"" + Escape(f[1..])
    else [f[0]] + Escape(f[1..])
  }

  /** A quoted stretch, closed by a quote that is not followed by another
      quote, contributes its unescaped text to the current line: an LF inside
      it does not end the line. */
  lemma {:induction false} QuotedTextStaysInLine(t: string, rest: string, cur: string, lines: seq<string>)
    requires '\r' !in t
    requires rest == [] || rest[0] != '"'
    ensures ScanLines(Escape(t) + "\"" + rest, true, cur, lines) == ScanLines(rest, false, cur + t, lines)
    decreases |t|
  {
    if t == [] {
      LineStepToggle(rest, true, cur, lines);
      assert cur + t == cur;
    } else {
      NotInTail(t, '\r');
      QuotedTextStaysInLine(t[1..], rest, cur + [t[0]], lines);
      AppendHead(cur, t);
      QuotedLineStep(t, rest, cur, lines);
    }
  }

  lemma EscapeCons(t: string, rest: string)
    requires t != []
    ensures Escape(t) + "\"" + rest == (if t[0] == '"' then "\"\"" else [t[0]]) + (Escape(t[1..]) + "\"" + rest)
  {
    if t[0] == '"' {
      Regroup("\"\"", Escape(t[1..]), "\"", rest);
    } else {
      Regroup([t[0]], Escape(t[1..]), "\"", rest);
    }
  }

  lemma QuotedLineStep(t: string, rest: string, cur: string, lines: seq<string>)
    requires t != [] && t[0] != '\r'
    requires ScanLines(Escape(t[1..]) + "\"" + rest, true, cur + [t[0]], lines) == ScanLines(rest, false, cur + t, lines)
    ensures ScanLines(Escape(t) + "\"" + rest, true, cur, lines) == ScanLines(rest, false, cur + t, lines)
  {
    var tail := Escape(t[1..]) + "\"" + rest;
    EscapeCons(t, rest);
    if t[0] == '"' {
      LineStepQuotePair(tail, cur, lines);
      assert cur + "\"" == cur + [t[0]];
    } else {
      LineStepChar(t[0], tail, true, cur, lines);
    }
  }

  lemma {:induction false} EscapeOfQuoteFree(t: string)
    requires '"' !in t
    ensures Escape(t) == t
    decreases |t|
  {
    if t != [] {
      NotInTail(t, '"');
      EscapeOfQuoteFree(t[1..]);
      AppendHead([], t);
    }
  }

  /** A line break between the quotes of a quoted stretch stays inside the
      one logical line. */
  lemma NewlineInsideQuotes()
    ensures LogicalLines("\"a\nb\"") == ["a\nb"]
  {
    var t := "a\nb";
    EscapeOfQuoteFree(t);
    assert "\"a\nb\"" == "\"" + (Escape(t) + "\"" + "");
    LineStepToggle(Escape(t) + "\"" + "", false, "", []);
    QuotedTextStaysInLine(t, "", "", []);
    EmptyPrefix(t);
    SampleLinesNotBlank();
  }

  lemma SampleLinesNotBlank()
    ensures !IsBlank("a\nb") && !IsBlank("a,b")
  {
    NotBlankIfStartsSolid("a\nb");
    NotBlankIfStartsSolid("a,b");
  }

  /** Text with no quote, LF or CR is copied into the current line as it is. */
  lemma {:induction false} PlainTextStaysInLine(t: string, rest: string, inQ: bool, cur: string, lines: seq<string>)
    requires '"' !in t && '\n' !in t && '\r' !in t
    ensures ScanLines(t + rest, inQ, cur, lines) == ScanLines(rest, inQ, cur + t, lines)
    decreases |t|
  {
    if t != [] {
      NotInTail(t, '"');
      NotInTail(t, '\n');
      NotInTail(t, '\r');
      ConcatHead(t, rest);
      LineStepChar(t[0], t[1..] + rest, inQ, cur, lines);
      PlainTextStaysInLine(t[1..], rest, inQ, cur + [t[0]], lines);
      AppendHead(cur, t);
    } else {
      assert t + rest == rest && cur + t == cur;
    }
  }

  /** A line the scanners pass through unchanged. */
  predicate PlainLine(l: string) {
    '"' !in l && '\n' !in l && '\r' !in l && !IsBlank(l)
  }

  /** Lines joined with `sep` (LF or CR LF) and scanned again come back as
      they were. */
  lemma {:induction false} LinesRoundTrip(ls: seq<string>, sep: string, lines: seq<string>)
    requires sep == "\n" || sep == "\r\n"
    requires forall k :: 0 <= k < |ls| ==> PlainLine(ls[k])
    ensures ScanLines(JoinWith(ls, sep), false, "", lines) == lines + ls
    decreases |ls|
  {
    if ls == [] {
      TrimEmpty();
      assert lines + ls == lines;
    } else if |ls| == 1 {
      assert ls == [ls[0]];
      LastPlainLine(ls[0], lines);
    } else {
      var tail := JoinWith(ls[1..], sep);
      JoinCons(ls, sep);
      LineThenRest(ls[0], sep, tail, lines);
      LinesRoundTrip(ls[1..], sep, lines + [ls[0]]);
      AppendHead(lines, ls);
    }
  }

  /** A plain line and its line end are scanned into one line. */
  lemma LineThenRest(l: string, sep: string, tail: string, lines: seq<string>)
    requires sep == "\n" || sep == "\r\n"
    requires PlainLine(l)
    ensures ScanLines(l + (sep + tail), false, "", lines) == ScanLines(tail, false, "", lines + [l])
  {
    PlainTextStaysInLine(l, sep + tail, false, "", lines);
    EmptyPrefix(l);
    LineStepBreak(sep, tail, l, lines);
  }

  lemma EmptyPrefix(l: string)
    ensures "" + l == l
  {
  }

  lemma LastPlainLine(l: string, lines: seq<string>)
    requires PlainLine(l)
    ensures ScanLines(JoinWith([l], "\n"), false, "", lines) == lines + [l]
    ensures ScanLines(JoinWith([l], "\r\n"), false, "", lines) == lines + [l]
  {
    PlainTextStaysInLine(l, "", false, "", lines);
    assert l + "" == l;
    EmptyPrefix(l);
  }

  /** The file made of plain lines separated by LF or CR LF has exactly those
      lines as its logical lines. */
  lemma LogicalLinesOfJoin(ls: seq<string>, sep: string)
    requires sep == "\n" || sep == "\r\n"
    requires forall k :: 0 <= k < |ls| ==> PlainLine(ls[k])
    ensures LogicalLines(JoinWith(ls, sep)) == ls
  {
    LinesRoundTrip(ls, sep, []);
  }

  // ---------------------------------------------------------------------------
  // Fields

  /** The field scanner, from the state (`inQ`, `cur`, `acc`) reached so far,
      run over the rest `s` of the line. */
  function ScanFields(s: string, inQ: bool, cur: string, acc: seq<string>): (r: seq<string>)
    ensures |r| > |acc| && r[..|acc|] == acc
    decreases |s|
  {
    if s == [] then acc + [cur]
    else if s[0] == '"' then
      if inQ && |s| > 1 && s[1] == '"' then ScanFields(s[2..], inQ, cur + ['"'], acc)
      else ScanFields(s[1..], !inQ, cur, acc)
    else if s[0] == ',' && !inQ then ScanFields(s[1..], false, "", acc + [cur])
    else ScanFields(s[1..], inQ, cur + [s[0]], acc)
  }

  /** The fields of one line. */
  function SplitFields(line: string): seq<string> {
    ScanFields(line, false, "", [])
  }

  /** How many commas the scanner meets outside quotes in `s`. */
  function CommasOutside(s: string, inQ: bool): nat
    decreases |s|
  {
    if s == [] then 0
    else if s[0] == '"' then
      if inQ && |s| > 1 && s[1] == '"' then CommasOutside(s[2..], inQ)
      else CommasOutside(s[1..], !inQ)
    else if s[0] == ',' && !inQ then 1 + CommasOutside(s[1..], inQ)
    else CommasOutside(s[1..], inQ)
  }

  lemma {:induction false} ScanFieldsCount(s: string, inQ: bool, cur: string, acc: seq<string>)
    ensures |ScanFields(s, inQ, cur, acc)| == |acc| + 1 + CommasOutside(s, inQ)
    decreases |s|
  {
    if s == [] {
    } else if s[0] == '"' {
      if inQ && |s| > 1 && s[1] == '"' {
        ScanFieldsCount(s[2..], inQ, cur + ['"'], acc);
      } else {
        ScanFieldsCount(s[1..], !inQ, cur, acc);
      }
    } else if s[0] == ',' && !inQ {
      ScanFieldsCount(s[1..], false, "", acc + [cur]);
    } else {
      ScanFieldsCount(s[1..], inQ, cur + [s[0]], acc);
    }
  }

  /** `parseCSVLine`: splits one line into fields at commas outside quotes; a
      quote toggles quoting and is dropped, `""` inside quotes stands for one
      `"`. There is one more field than commas met outside quotes. */
  method ParseCSVLine(line: string) returns (values: seq<string>)
    ensures values == SplitFields(line)
    ensures |values| == 1 + CommasOutside(line, false)
  {
    values := [];
    var cur := "";
    var inQ := false;
    var i := 0;
    while i < |line|
      invariant 0 <= i <= |line|
      invariant ScanFields(line[i..], inQ, cur, values) == SplitFields(line)
    {
      var c := line[i];
      assert line[i..][1..] == line[i + 1..];
      if c == '"' {
        if inQ && i + 1 < |line| && line[i + 1] == '"' {
          assert line[i..][2..] == line[i + 2..];
          cur := cur + ['"'];
          i := i + 1;
        } else {
          inQ := !inQ;
        }
      } else if c == ',' && !inQ {
        values := values + [cur];
        cur := "";
      } else {
        cur := cur + [c];
      }
      i := i + 1;
    }
    values := values + [cur];
    ScanFieldsCount(line, false, "", []);
  }

  // One step of the field scanner at a time, for the proofs below.

  lemma FieldStepChar(c: char, rest: string, inQ: bool, cur: string, acc: seq<string>)
    requires c != '"' && (c != ',' || inQ)
    ensures ScanFields([c] + rest, inQ, cur, acc) == ScanFields(rest, inQ, cur + [c], acc)
  {
    assert ([c] + rest)[1..] == rest;
  }

  lemma FieldStepQuotePair(rest: string, cur: string, acc: seq<string>)
    ensures ScanFields("\"\"" + rest, true, cur, acc) == ScanFields(rest, true, cur + "\"", acc)
  {
    assert ("\"\"" + rest)[2..] == rest;
  }

  lemma FieldStepToggle(rest: string, inQ: bool, cur: string, acc: seq<string>)
    requires !inQ || rest == [] || rest[0] != '"'
    ensures ScanFields("\"" + rest, inQ, cur, acc) == ScanFields(rest, !inQ, cur, acc)
  {
    assert ("\"" + rest)[1..] == rest;
  }

  lemma FieldStepComma(rest: string, cur: string, acc: seq<string>)
    ensures ScanFields("," + rest, false, cur, acc) == ScanFields(rest, false, "", acc + [cur])
  {
    assert ("," + rest)[1..] == rest;
  }

  /** A quoted field, closed by a quote not followed by another quote, yields
      its unescaped text: commas, quotes and line breaks inside it stay in the
      field. */
  lemma {:induction false} QuotedTextStaysInField(t: string, rest: string, cur: string, acc: seq<string>)
    requires rest == [] || rest[0] != '"'
    ensures ScanFields(Escape(t) + "\"" + rest, true, cur, acc) == ScanFields(rest, false, cur + t, acc)
    decreases |t|
  {
    if t == [] {
      FieldStepToggle(rest, true, cur, acc);
      assert cur + t == cur;
    } else {
      QuotedTextStaysInField(t[1..], rest, cur + [t[0]], acc);
      AppendHead(cur, t);
      QuotedFieldStep(t, rest, cur, acc);
    }
  }

  lemma QuotedFieldStep(t: string, rest: string, cur: string, acc: seq<string>)
    requires t != []
    requires ScanFields(Escape(t[1..]) + "\"" + rest, true, cur + [t[0]], acc) == ScanFields(rest, false, cur + t, acc)
    ensures ScanFields(Escape(t) + "\"" + rest, true, cur, acc) == ScanFields(rest, false, cur + t, acc)
  {
    var tail := Escape(t[1..]) + "\"" + rest;
    EscapeCons(t, rest);
    if t[0] == '"' {
      FieldStepQuotePair(tail, cur, acc);
      assert cur + "\"" == cur + [t[0]];
    } else {
      FieldStepChar(t[0], tail, true, cur, acc);
    }
  }

  /** A field written as section 2 (rules 6 and 7) of RFC 4180 writes it. */
  function Quote(f: string): (r: string)
    ensures |r| >= |f| + 2 && r[0] == '"' && r[|r| - 1] == '"'
  {
    "\"" + Escape(f) + "\""
  }

  function QuoteAll(fs: seq<string>): (r: seq<string>)
    ensures |r| == |fs|
  {
    if fs == [] then [] else [Quote(fs[0])] + QuoteAll(fs[1..])
  }

  lemma {:induction false} QuoteAllAt(fs: seq<string>, k: nat)
    requires k < |fs|
    ensures QuoteAll(fs)[k] == Quote(fs[k])
    decreases k
  {
    if k > 0 {
      QuoteAllAt(fs[1..], k - 1);
    }
  }

  lemma {:induction false} QuotedFieldsRoundTrip(fs: seq<string>, acc: seq<string>)
    requires |fs| >= 1
    ensures ScanFields(JoinWith(QuoteAll(fs), ","), false, "", acc) == acc + fs
    decreases |fs|
  {
    var q := QuoteAll(fs);
    var rest := if |fs| == 1 then "" else "," + JoinWith(q[1..], ",");
    QuoteAllCons(fs);
    FieldStepToggle(Escape(fs[0]) + "\"" + rest, false, "", acc);
    QuotedTextStaysInField(fs[0], rest, "", acc);
    assert "" + fs[0] == fs[0];
    if |fs| > 1 {
      FieldStepComma(JoinWith(q[1..], ","), fs[0], acc);
      QuotedFieldsRoundTrip(fs[1..], acc + [fs[0]]);
      AppendHead(acc, fs);
    }
  }

  lemma QuoteAllCons(fs: seq<string>)
    requires |fs| >= 1
    ensures QuoteAll(fs)[1..] == QuoteAll(fs[1..])
    ensures JoinWith(QuoteAll(fs), ",") == "\"" + (Escape(fs[0]) + "\"" + (if |fs| == 1 then "" else "," + JoinWith(QuoteAll(fs[1..]), ",")))
  {
    var q := QuoteAll(fs);
    assert q == [Quote(fs[0])] + QuoteAll(fs[1..]);
    assert q[1..] == QuoteAll(fs[1..]);
    JoinCons(q, ",");
    var rest := if |fs| == 1 then "" else "," + JoinWith(QuoteAll(fs[1..]), ",");
    assert JoinWith(q, ",") == Quote(fs[0]) + rest;
    Regroup("\"", Escape(fs[0]), "\"", rest);
  }

  /** Any fields, each quoted as RFC 4180 writes them and joined by commas, are
      split back into exactly those fields, whatever commas, quotes or line
      breaks they hold. */
  lemma SplitQuotedFields(fs: seq<string>)
    requires |fs| >= 1
    ensures SplitFields(JoinWith(QuoteAll(fs), ",")) == fs
  {
    QuotedFieldsRoundTrip(fs, []);
  }

  lemma {:induction false} PlainTextStaysInField(t: string, rest: string, cur: string, acc: seq<string>)
    requires '"' !in t && ',' !in t
    ensures ScanFields(t + rest, false, cur, acc) == ScanFields(rest, false, cur + t, acc)
    decreases |t|
  {
    if t != [] {
      NotInTail(t, '"');
      NotInTail(t, ',');
      ConcatHead(t, rest);
      FieldStepChar(t[0], t[1..] + rest, false, cur, acc);
      PlainTextStaysInField(t[1..], rest, cur + [t[0]], acc);
      AppendHead(cur, t);
    } else {
      assert t + rest == rest && cur + t == cur;
    }
  }

  /** A field the field scanner passes through unchanged without quoting. */
  predicate PlainField(f: string) {
    '"' !in f && ',' !in f
  }

  lemma {:induction false} PlainFieldsRoundTrip(fs: seq<string>, acc: seq<string>)
    requires |fs| >= 1
    requires forall k :: 0 <= k < |fs| ==> PlainField(fs[k])
    ensures ScanFields(JoinWith(fs, ","), false, "", acc) == acc + fs
    decreases |fs|
  {
    var rest := if |fs| == 1 then "" else "," + JoinWith(fs[1..], ",");
    JoinCons(fs, ",");
    PlainTextStaysInField(fs[0], rest, "", acc);
    assert "" + fs[0] == fs[0];
    if |fs| > 1 {
      FieldStepComma(JoinWith(fs[1..], ","), fs[0], acc);
      PlainFieldsRoundTrip(fs[1..], acc + [fs[0]]);
      AppendHead(acc, fs);
    }
  }

  /** Fields with no quote and no comma, joined by commas, split back into
      exactly those fields. */
  lemma SplitPlainFields(fs: seq<string>)
    requires |fs| >= 1
    requires forall k :: 0 <= k < |fs| ==> PlainField(fs[k])
    ensures SplitFields(JoinWith(fs, ",")) == fs
  {
    PlainFieldsRoundTrip(fs, []);
  }

  /** The line scanner drops the quotes around `"a,b"`, so the field scanner
      then sees two fields where the quoted line alone is one field. */
  lemma QuotedCommaLostByLineScanner()
    ensures LogicalLines("\"a,b\"") == ["a,b"]
    ensures SplitFields("\"a,b\"") == ["a,b"]
    ensures SplitFields("a,b") == ["a", "b"]
  {
    var t := "a,b";
    EscapeOfQuoteFree(t);
    assert "\"a,b\"" == "\"" + (Escape(t) + "\"" + "");
    LineStepToggle(Escape(t) + "\"" + "", false, "", []);
    QuotedTextStaysInLine(t, "", "", []);
    EmptyPrefix(t);
    SampleLinesNotBlank();
    FieldStepToggle(Escape(t) + "\"" + "", false, "", []);
    QuotedTextStaysInField(t, "", "", []);
    UnquotedPairSplits();
  }

  lemma UnquotedPairSplits()
    ensures SplitFields("a,b") == ["a", "b"]
  {
    assert "a,b" == "a" + ("," + "b");
    PlainTextStaysInField("a", "," + "b", "", []);
    EmptyPrefix("a");
    FieldStepComma("b", "a", []);
    assert "b" == "b" + "";
    PlainTextStaysInField("b", "", "", ["a"]);
    EmptyPrefix("b");
  }

  // ---------------------------------------------------------------------------
  // Projection onto users

  /** The user field a header fills, as the `switch` on the header picks it. */
  datatype Column = EmailColumn | LoginIdColumn | NameColumn | OtherColumn

  function ColumnOf(header: string): (c: Column)
    ensures c == LoginIdColumn <==> header == "loginid" || header == "login_id"
  {
    if header == "email" then EmailColumn
    else if header == "loginid" || header == "login_id" then LoginIdColumn
    else if header == "name" then NameColumn
    else OtherColumn
  }

  /** Two spellings name the login id column, and only they do. */
  lemma LoginIdAliases(header: string)
    ensures ColumnOf(header) == LoginIdColumn <==> header == "loginid" || header == "login_id"
  {
  }

  /** A header cell as the readers compare it: trimmed and lower-cased. */
  function HeaderKey(h: string): string {
    ToLower(Trim(h))
  }

  function HeaderKeys(cells: seq<string>): (r: seq<string>)
    ensures |r| == |cells|
    ensures forall k :: 0 <= k < |cells| ==> r[k] == HeaderKey(cells[k])
  {
    if cells == [] then [] else [HeaderKey(cells[0])] + HeaderKeys(cells[1..])
  }

  /** The header that sets a field in the forEach over the first `n`
      headers: the last one of column `col` whose raw value is non-empty, or
      -1 when there is none. */
  function LastIndex(headers: seq<string>, values: seq<string>, col: Column, n: nat): (k: int)
    requires n <= |headers|
    ensures -1 <= k < n && (0 <= k ==> k < |values|)
  {
    if n == 0 then -1
    else if ColumnOf(headers[n - 1]) == col && n - 1 < |values| && values[n - 1] != "" then n - 1
    else LastIndex(headers, values, col, n - 1)
  }

  /** The header found is of the column and has a value, and no later one
      does: the last one wins. */
  lemma {:induction false} LastIndexIsLast(headers: seq<string>, values: seq<string>, col: Column, n: nat)
    requires n <= |headers|
    ensures var k := LastIndex(headers, values, col, n);
      (0 <= k ==> ColumnOf(headers[k]) == col && values[k] != "") &&
      forall j :: k < j < n ==> !(ColumnOf(headers[j]) == col && j < |values| && values[j] != "")
    decreases n
  {
    if n > 0 && !(ColumnOf(headers[n - 1]) == col && n - 1 < |values| && values[n - 1] != "") {
      LastIndexIsLast(headers, values, col, n - 1);
    }
  }

  /** The value that field holds: the trimmed value under that header, or ""
      (unset). */
  function LastValue(headers: seq<string>, values: seq<string>, col: Column, n: nat): string
    requires n <= |headers|
  {
    var k := LastIndex(headers, values, col, n);
    if k < 0 then "" else Trim(values[k])
  }

  lemma LastValueStep(headers: seq<string>, values: seq<string>, col: Column, i: nat)
    requires i < |headers|
    ensures LastValue(headers, values, col, i + 1) ==
      (if ColumnOf(headers[i]) == col && i < |values| && values[i] != "" then Trim(values[i])
       else LastValue(headers, values, col, i))
  {
  }

  /** The user a data row yields, if any: rows with fewer than three fields
      are skipped, and a user needs all three fields set. */
  function RowUser(headers: seq<string>, values: seq<string>): Option<Identity> {
    if |values| < 3 then None
    else
      var e := LastValue(headers, values, EmailColumn, |headers|);
      var l := LastValue(headers, values, LoginIdColumn, |headers|);
      var n := LastValue(headers, values, NameColumn, |headers|);
      if e != "" && l != "" && n != "" then Some(Identity(e, l, n)) else None
  }

  /** The users of the data lines `rows`, in row order. */
  function UsersOf(headers: seq<string>, rows: seq<string>): seq<Identity>
    decreases |rows|
  {
    if rows == [] then []
    else
      var earlier := UsersOf(headers, rows[..|rows| - 1]);
      match RowUser(headers, SplitFields(rows[|rows| - 1]))
      case Some(u) => earlier + [u]
      case None => earlier
  }

  lemma UsersOfLast(headers: seq<string>, rows: seq<string>)
    requires rows != []
    ensures UsersOf(headers, rows) ==
      UsersOf(headers, rows[..|rows| - 1]) + Found(RowUser(headers, SplitFields(rows[|rows| - 1])))
  {
  }

  /** The users an optional user contributes. */
  function Found(o: Option<Identity>): (r: seq<Identity>)
    ensures |r| <= 1
  {
    if o.Some? then [o.value] else []
  }

  /** What the backend reader returns for a whole upload. */
  function ParsedUsers(csv: string): seq<Identity> {
    var lines := LogicalLines(StripBom(csv));
    if |lines| < 2 then [] else UsersOf(HeaderKeys(SplitFields(lines[0])), lines[1..])
  }

  /** A user field as the readers leave it: set and already trimmed. */
  predicate Filled(v: string) {
    v != "" && Trim(v) == v
  }

  predicate Complete(u: Identity) {
    Filled(u.email) && Filled(u.loginId) && Filled(u.name)
  }

  lemma LastValueTrimmed(headers: seq<string>, values: seq<string>, col: Column, n: nat)
    requires n <= |headers|
    ensures Trim(LastValue(headers, values, col, n)) == LastValue(headers, values, col, n)
  {
    var k := LastIndex(headers, values, col, n);
    if k < 0 {
      TrimEmpty();
    } else {
      TrimIdempotent(values[k]);
    }
  }

  /** Every user a row yields has all three fields set and trimmed. */
  lemma RowUserComplete(headers: seq<string>, values: seq<string>)
    ensures RowUser(headers, values).Some? ==> Complete(RowUser(headers, values).value)
  {
    LastValueTrimmed(headers, values, EmailColumn, |headers|);
    LastValueTrimmed(headers, values, LoginIdColumn, |headers|);
    LastValueTrimmed(headers, values, NameColumn, |headers|);
  }

  lemma {:induction false} UsersOfComplete(headers: seq<string>, rows: seq<string>)
    ensures |UsersOf(headers, rows)| <= |rows|
    ensures forall k :: 0 <= k < |UsersOf(headers, rows)| ==> Complete(UsersOf(headers, rows)[k])
    decreases |rows|
  {
    if rows != [] {
      UsersOfComplete(headers, rows[..|rows| - 1]);
      RowUserComplete(headers, SplitFields(rows[|rows| - 1]));
    }
  }

  /** Every user the backend reader returns has non-empty, trimmed e-mail,
      login id and name, and there is at most one user per data line. */
  lemma ParsedUsersComplete(csv: string)
    ensures forall k :: 0 <= k < |ParsedUsers(csv)| ==> Complete(ParsedUsers(csv)[k])
    ensures |ParsedUsers(csv)| < |LogicalLines(StripBom(csv))| || ParsedUsers(csv) == []
  {
    var lines := LogicalLines(StripBom(csv));
    if |lines| >= 2 {
      UsersOfComplete(HeaderKeys(SplitFields(lines[0])), lines[1..]);
    }
  }

  /** The forEach over the headers that fills one user object. */
  method ProjectRow(headers: seq<string>, values: seq<string>) returns (email: string, loginId: string, name: string)
    ensures email == LastValue(headers, values, EmailColumn, |headers|)
    ensures loginId == LastValue(headers, values, LoginIdColumn, |headers|)
    ensures name == LastValue(headers, values, NameColumn, |headers|)
  {
    email, loginId, name := "", "", "";
    var i := 0;
    while i < |headers|
      invariant 0 <= i <= |headers|
      invariant email == LastValue(headers, values, EmailColumn, i)
      invariant loginId == LastValue(headers, values, LoginIdColumn, i)
      invariant name == LastValue(headers, values, NameColumn, i)
    {
      LastValueStep(headers, values, EmailColumn, i);
      LastValueStep(headers, values, LoginIdColumn, i);
      LastValueStep(headers, values, NameColumn, i);
      var present := i < |values| && values[i] != "";
      email, loginId, name := Assign(ColumnOf(headers[i]), present, if present then values[i] else "", email, loginId, name);
      i := i + 1;
    }
  }

  /** One step of the forEach: a present value, trimmed, goes to its column's
      field. */
  method Assign(c: Column, present: bool, raw: string, email: string, loginId: string, name: string)
    returns (email': string, loginId': string, name': string)
    ensures email' == if present && c == EmailColumn then Trim(raw) else email
    ensures loginId' == if present && c == LoginIdColumn then Trim(raw) else loginId
    ensures name' == if present && c == NameColumn then Trim(raw) else name
  {
    email', loginId', name' := email, loginId, name;
    if present {
      var value := Trim(raw);
      match c
      case EmailColumn => email' := value;
      case LoginIdColumn => loginId' := value;
      case NameColumn => name' := value;
      case OtherColumn =>
    }
  }

  /** The loop over the data lines that collects the users. */
  method CollectUsers(headers: seq<string>, rows: seq<string>) returns (users: seq<Identity>)
    ensures users == UsersOf(headers, rows)
  {
    users := [];
    var i := 0;
    while i < |rows|
      invariant 0 <= i <= |rows|
      invariant users == UsersOf(headers, rows[..i])
    {
      assert rows[..i + 1][..i] == rows[..i];
      var values := ParseCSVLine(rows[i]);
      if |values| >= 3 {
        var email, loginId, name := ProjectRow(headers, values);
        if email != "" && loginId != "" && name != "" {
          users := users + [Identity(email, loginId, name)];
        }
      }
      i := i + 1;
    }
    assert rows[..i] == rows;
  }

  /** `parseCSV`: strips a leading byte-order mark, splits the logical lines,
      reads the header line and returns the complete users of the data
      lines in order; fewer than two logical lines give no users. */
  method ParseCSV(csv: string) returns (users: seq<Identity>)
    ensures users == ParsedUsers(csv)
    ensures forall k :: 0 <= k < |users| ==> Complete(users[k])
  {
    var data := StripBom(csv);
    var lines := ParseCSVLines(data);
    if |lines| < 2 {
      users := [];
    } else {
      var cells := ParseCSVLine(lines[0]);
      var headers := HeaderKeys(cells);
      users := CollectUsers(headers, lines[1..]);
    }
    ParsedUsersComplete(csv);
  }

  // ---------------------------------------------------------------------------
  // Reading back a file written from users

  /** A value that survives both scanners and the trim untouched: set, not
      starting or ending with space, and free of quotes, commas and line
      breaks. */
  predicate PlainValue(v: string) {
    v != [] && !IsSpace(v[0]) && !IsSpace(v[|v| - 1])
    && '"' !in v && ',' !in v && '\n' !in v && '\r' !in v
  }

  predicate PlainUser(u: Identity) {
    PlainValue(u.email) && PlainValue(u.loginId) && PlainValue(u.name)
  }

  const HeaderCells: seq<string> := ["email", "loginId", "name"]

  function RowCells(u: Identity): seq<string> {
    [u.email, u.loginId, u.name]
  }

  /** The line a user is written as. */
  function RowLine(u: Identity): string {
    JoinWith(RowCells(u), ",")
  }

  function RowLines(us: seq<Identity>): (r: seq<string>)
    ensures |r| == |us|
    ensures forall k :: 0 <= k < |us| ==> r[k] == RowLine(us[k])
  {
    seq(|us|, i requires 0 <= i < |us| => RowLine(us[i]))
  }

  /** The upload file for `us`: a header line and one line per user, joined
      by LF. */
  function RenderUsers(us: seq<Identity>): string {
    JoinWith([JoinWith(HeaderCells, ",")] + RowLines(us), "\n")
  }

  lemma PlainCellsLine(cells: seq<string>)
    requires |cells| == 3
    requires forall k :: 0 <= k < 3 ==> PlainValue(cells[k])
    ensures PlainLine(JoinWith(cells, ","))
    ensures forall k :: 0 <= k < 3 ==> PlainField(cells[k])
  {
    var l := JoinWith(cells, ",");
    JoinCons(cells, ",");
    JoinCons(cells[1..], ",");
    JoinCons(cells[2..], ",");
    assert l == cells[0] + ("," + (cells[1] + ("," + cells[2])));
    NotBlankIfStartsSolid(l);
  }

  lemma HeaderLineFields()
    ensures PlainLine(JoinWith(HeaderCells, ","))
    ensures HeaderKeys(SplitFields(JoinWith(HeaderCells, ","))) == RenderedHeaders
  {
    assert PlainValue("email") && PlainValue("loginId") && PlainValue("name");
    PlainCellsLine(HeaderCells);
    SplitPlainFields(HeaderCells);
    HeaderKeysOfCells();
  }

  /** The header keys of the rendered header line. */
  const RenderedHeaders: seq<string> := ["email", "loginid", "name"]

  lemma HeaderKeysOfCells()
    ensures HeaderKeys(HeaderCells) == RenderedHeaders
  {
    KeyOfEmail();
    KeyOfLoginId();
    KeyOfName();
  }

  lemma KeyOfEmail()
    ensures HeaderKey("email") == "email"
  {
    NotBlankKeys();
    TrimOfTrimmed("email");
    assert ToLower("email") == "email";
  }

  lemma KeyOfLoginId()
    ensures HeaderKey("loginId") == "loginid"
  {
    NotBlankKeys();
    TrimOfTrimmed("loginId");
    assert ToLower("loginId") == "loginid";
  }

  lemma KeyOfName()
    ensures HeaderKey("name") == "name"
  {
    NotBlankKeys();
    TrimOfTrimmed("name");
    assert ToLower("name") == "name";
  }

  lemma NotBlankKeys()
    ensures !IsSpace('e') && !IsSpace('l') && !IsSpace('d') && !IsSpace('n')
  {
  }

  lemma ColumnsOfRenderedHeaders()
    ensures ColumnOf(RenderedHeaders[0]) == EmailColumn
    ensures ColumnOf(RenderedHeaders[1]) == LoginIdColumn
    ensures ColumnOf(RenderedHeaders[2]) == NameColumn
  {
  }

  /** A three-field row under the rendered headers fills each user field from
      its own column. */
  lemma ProjectRenderedRow(values: seq<string>)
    requires |values| == 3 && values[0] != "" && values[1] != "" && values[2] != ""
    ensures LastValue(RenderedHeaders, values, EmailColumn, 3) == Trim(values[0])
    ensures LastValue(RenderedHeaders, values, LoginIdColumn, 3) == Trim(values[1])
    ensures LastValue(RenderedHeaders, values, NameColumn, 3) == Trim(values[2])
  {
    ColumnsOfRenderedHeaders();
    var h := RenderedHeaders;
    LastValueStep(h, values, EmailColumn, 0);
    LastValueStep(h, values, EmailColumn, 1);
    LastValueStep(h, values, EmailColumn, 2);
    LastValueStep(h, values, LoginIdColumn, 0);
    LastValueStep(h, values, LoginIdColumn, 1);
    LastValueStep(h, values, LoginIdColumn, 2);
    LastValueStep(h, values, NameColumn, 0);
    LastValueStep(h, values, NameColumn, 1);
    LastValueStep(h, values, NameColumn, 2);
  }

  lemma RowOfPlainUser(u: Identity)
    requires PlainUser(u)
    ensures PlainLine(RowLine(u))
    ensures RowUser(RenderedHeaders, SplitFields(RowLine(u))) == Some(u)
  {
    var cells := RowCells(u);
    PlainCellsLine(cells);
    SplitPlainFields(cells);
    ProjectRenderedRow(cells);
    TrimOfTrimmed(u.email);
    TrimOfTrimmed(u.loginId);
    TrimOfTrimmed(u.name);
  }

  lemma {:induction false} UsersOfRendered(us: seq<Identity>)
    requires forall k :: 0 <= k < |us| ==> PlainUser(us[k])
    ensures UsersOf(RenderedHeaders, RowLines(us)) == us
    decreases |us|
  {
    if us != [] {
      var n := |us| - 1;
      var rows := RowLines(us);
      assert UsersOf(RenderedHeaders, rows[..n]) == us[..n] by {
        assert rows[..n] == RowLines(us[..n]);
        UsersOfRendered(us[..n]);
      }
      assert RowUser(RenderedHeaders, SplitFields(rows[n])) == Some(us[n]) by {
        assert rows[n] == RowLine(us[n]);
        RowOfPlainUser(us[n]);
      }
      UsersOfLast(RenderedHeaders, rows);
      assert us[..n] + [us[n]] == us;
    }
  }

  lemma RenderedLinesPlain(us: seq<Identity>)
    requires forall k :: 0 <= k < |us| ==> PlainUser(us[k])
    ensures forall k :: 0 <= k < |us| + 1 ==> PlainLine(([JoinWith(HeaderCells, ",")] + RowLines(us))[k])
  {
    var lines := [JoinWith(HeaderCells, ",")] + RowLines(us);
    HeaderLineFields();
    forall k | 0 <= k < |lines| ensures PlainLine(lines[k]) {
      if k > 0 {
        assert lines[k] == RowLine(us[k - 1]);
        RowOfPlainUser(us[k - 1]);
      }
    }
  }

  /** Users whose fields need no quoting, written one per line under the
      header `email,loginId,name`, are read back exactly, in order. */
  lemma ParseRenderedUsers(us: seq<Identity>)
    requires forall k :: 0 <= k < |us| ==> PlainUser(us[k])
    ensures ParsedUsers(RenderUsers(us)) == us
  {
    var lines := [JoinWith(HeaderCells, ",")] + RowLines(us);
    HeaderLineFields();
    RenderedLinesPlain(us);
    JoinCons(lines, "\n");
    JoinCons(HeaderCells, ",");
    assert RenderUsers(us)[0] == 'e';
    assert StripBom(RenderUsers(us)) == RenderUsers(us);
    LogicalLinesOfJoin(lines, "\n");
    assert lines[1..] == RowLines(us);
    UsersOfRendered(us);
  }
}
