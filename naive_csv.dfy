/** The naive reader shared by the database and server pages
    (frontend/js/databaseManager.js, frontend/js/serverManager.js) and the
    legacy server (server_old.js): `split('\n')` with blank lines dropped,
    then `split(',')` with every cell trimmed. Quotes get no special
    treatment. */
module NaiveCsv {
  import opened Text
  import opened CsvParser

  /** `lines.filter(line => line.trim())`. */
  function NonBlank(ls: seq<string>): (r: seq<string>)
    ensures |r| <= |ls|
    ensures forall k :: 0 <= k < |r| ==> !IsBlank(r[k])
    ensures forall l :: l in r <==> l in ls && !IsBlank(l)
  {
    if ls == [] then []
    else (if IsBlank(ls[0]) then [] else [ls[0]]) + NonBlank(ls[1..])
  }

  /** `csvData.split('\n').filter(line => line.trim())`: a CR before the LF
      stays at the end of its line. */
  function NaiveLines(csv: string): seq<string> {
    NonBlank(SplitOn(csv, '\n'))
  }

  /** `line.split(',').map(v => v.trim())`. */
  function NaiveCells(line: string): (r: seq<string>)
    ensures |r| >= 1
  {
    var parts := SplitOn(line, ',');
    seq(|parts|, k requires 0 <= k < |parts| => Trim(parts[k]))
  }

  /** `lines[0].split(',').map(h => h.trim().toLowerCase())`. */
  function NaiveHeaders(line: string): (r: seq<string>)
    ensures |r| == |SplitOn(line, ',')|
  {
    HeaderKeys(SplitOn(line, ','))
  }

  /** Every line kept is non-blank and holds no LF. */
  lemma NaiveLinesShape(csv: string)
    ensures var r := NaiveLines(csv);
      forall k :: 0 <= k < |r| ==> !IsBlank(r[k]) && '\n' !in r[k]
  {
    var parts := SplitOn(csv, '\n');
    var r := NaiveLines(csv);
    forall k | 0 <= k < |r| ensures '\n' !in r[k] {
      assert r[k] in parts;
    }
  }

  lemma {:induction false} NonBlankOf(ls: seq<string>)
    requires forall k :: 0 <= k < |ls| ==> !IsBlank(ls[k])
    ensures NonBlank(ls) == ls
    decreases |ls|
  {
    if ls != [] {
      NonBlankOf(ls[1..]);
    }
  }

  /** LF-joined lines come back with the blank ones dropped and the others
      unchanged and in order. */
  lemma NaiveLinesOfJoin(ls: seq<string>)
    requires |ls| >= 1
    requires forall k :: 0 <= k < |ls| ==> '\n' !in ls[k]
    ensures NaiveLines(JoinWith(ls, "\n")) == NonBlank(ls)
  {
    JoinThenSplit(ls, '\n');
  }

  /** With no blank line, the lines are read back exactly. */
  lemma NaiveLinesRoundTrip(ls: seq<string>)
    requires |ls| >= 1
    requires forall k :: 0 <= k < |ls| ==> '\n' !in ls[k] && !IsBlank(ls[k])
    ensures NaiveLines(JoinWith(ls, "\n")) == ls
  {
    NaiveLinesOfJoin(ls);
    NonBlankOf(ls);
  }

  /** A cell the naive reader gives back as it is. */
  predicate PlainCell(c: string) {
    ',' !in c && Trim(c) == c
  }

  /** Trimmed cells without commas are read back exactly. */
  lemma NaiveCellsOfJoin(cells: seq<string>)
    requires |cells| >= 1
    requires forall k :: 0 <= k < |cells| ==> PlainCell(cells[k])
    ensures NaiveCells(JoinWith(cells, ",")) == cells
  {
    JoinThenSplit(cells, ',');
  }

  /** There is no quote handling: a quoted cell holding a comma is cut at the
      comma, and the quotes stay in the two halves. */
  lemma QuotedCommaSplits(a: string, b: string)
    requires ',' !in a && ',' !in b && SolidEnds(a) && SolidEnds(b)
    ensures NaiveCells("\"" + a + "," + b + "\"") == ["\"" + a, b + "\""]
  {
    var x := "\"" + a;
    var y := b + "\"";
    assert NaiveCells(x + "," + y) == [x, y] by {
      QuoteThenText(a);
      TextThenQuote(b);
      TwoCells(x, y);
    }
    assert "\"" + a + "," + b + "\"" == x + "," + y;
  }

  /** No space at either end. */
  predicate SolidEnds(s: string) {
    s == [] || (!IsSpace(s[0]) && !IsSpace(s[|s| - 1]))
  }

  lemma QuoteThenText(a: string)
    requires ',' !in a && SolidEnds(a)
    ensures PlainCell("\"" + a)
  {
    var x := "\"" + a;
    assert x[0] == '"' && x[|x| - 1] == (if a == [] then '"' else a[|a| - 1]);
    TrimOfTrimmed(x);
  }

  lemma TextThenQuote(b: string)
    requires ',' !in b && SolidEnds(b)
    ensures PlainCell(b + "\"")
  {
    var y := b + "\"";
    assert y[0] == (if b == [] then '"' else b[0]) && y[|y| - 1] == '"';
    TrimOfTrimmed(y);
  }

  lemma TwoCells(x: string, y: string)
    requires PlainCell(x) && PlainCell(y)
    ensures NaiveCells(x + "," + y) == [x, y]
  {
    var parts := [x, y];
    assert PlainCell(parts[0]) && PlainCell(parts[1]);
    assert JoinWith(parts, ",") == x + "," + y by {
      JoinCons(parts, ",");
      assert parts[1..] == [y];
    }
    NaiveCellsOfJoin(parts);
  }
}
