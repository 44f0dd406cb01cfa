/** The CSV helper of the user page (frontend/js/modules/userCSVHandler.js):
    the import that merges a file into the shared table and returns to page
    1, and the results file written from the rows of the current page. */
module UserCsvHandler {
  import opened Text
  import opened CsvParser
  import opened FrontendCsv
  import opened Dashboard

  /** `allUsers.find(u => u.email === user.email && u.loginId === user.loginId)`:
      the first row with that e-mail and login id. */
  function FindByLogin(rows: seq<UserRow>, u: Identity): (r: Option<UserRow>)
    ensures r.Some? ==> r.value in rows && r.value.email == u.email && r.value.loginId == u.loginId
    ensures r.None? ==> forall k :: 0 <= k < |rows| ==> !(rows[k].email == u.email && rows[k].loginId == u.loginId)
  {
    if rows == [] then None
    else if rows[0].email == u.email && rows[0].loginId == u.loginId then Some(rows[0])
    else FindByLogin(rows[1..], u)
  }

  /** The result column of the download: '성공' for a row that succeeded,
      '실패' for any other row with a result, '' otherwise. */
  function ResultText(rows: seq<UserRow>, u: Identity): string {
    match FindByLogin(rows, u)
    case None => ""
    case Some(r) => if r.result == NoResult then "" else if r.result == Succeeded then "성공" else "실패"
  }

  lemma ResultTextCases(rows: seq<UserRow>, u: Identity)
    ensures var f := FindByLogin(rows, u);
      (ResultText(rows, u) == "성공" <==> f.Some? && f.value.result == Succeeded) &&
      (ResultText(rows, u) == "실패" <==> f.Some? && (f.value.result == Processing || f.value.result == Failed)) &&
      (ResultText(rows, u) == "" <==> f.None? || f.value.result == NoResult)
  {
    assert "성공"[0] != "실패"[0];
  }

  /** The header line of the results file, without its line end. */
  const ResultsHeader: string := "순번,이메일,로그인ID,이름,결과"

  /** A data line without its line end: the row number, then the e-mail,
      login id, name and result, each in double quotes (not escaped). */
  function Record(n: nat, u: Identity, result: string): string {
    NatToString(n) + ",\"" + u.email + "\",\"" + u.loginId + "\",\"" + u.name + "\",\"" + result + "\""
  }

  /** The data lines for the page's users, numbered from 1. */
  function Records(rows: seq<UserRow>, users: seq<Identity>): (r: seq<string>)
    ensures |r| == |users|
  {
    seq(|users|, k requires 0 <= k < |users| => Record(k + 1, users[k], ResultText(rows, users[k])))
  }

  /** The text `downloadResults` puts in the file. */
  function ResultsCsv(rows: seq<UserRow>, users: seq<Identity>): string {
    Terminated([ResultsHeader] + Records(rows, users), "\n")
  }

  /** With no line break in any field, the results file is the header, one
      line per user of the page in order, and an empty remainder after the
      final line end. */
  lemma ResultsLines(rows: seq<UserRow>, users: seq<Identity>)
    requires forall k :: 0 <= k < |users| ==> '\n' !in users[k].email && '\n' !in users[k].loginId && '\n' !in users[k].name
    ensures SplitOn(ResultsCsv(rows, users), '\n') == [ResultsHeader] + Records(rows, users) + [""]
  {
    var parts := [ResultsHeader] + Records(rows, users) + [""];
    TerminatedIsJoin([ResultsHeader] + Records(rows, users), "\n");
    forall k | 0 <= k < |parts| ensures '\n' !in parts[k] {
      if 1 <= k <= |users| {
        var u := users[k - 1];
        NoBreakInRecord(k, u, ResultText(rows, u));
      }
    }
    JoinThenSplit(parts, '\n');
  }

  lemma NoBreakInRecord(n: nat, u: Identity, result: string)
    requires '\n' !in u.email && '\n' !in u.loginId && '\n' !in u.name && '\n' !in result
    ensures '\n' !in Record(n, u, result)
  {
  }

  /** The four quoted cells of a data line. */
  function RecordCells(u: Identity, result: string): seq<string> {
    [u.email, u.loginId, u.name, result]
  }

  /** Without double quotes in the fields, a data line is its row number and
      the four cells quoted as section 2 of RFC 4180 writes them. */
  lemma RecordIsQuoted(n: nat, u: Identity, result: string)
    requires '"' !in u.email && '"' !in u.loginId && '"' !in u.name && '"' !in result
    ensures Record(n, u, result) == NatToString(n) + "," + JoinWith(QuoteAll(RecordCells(u, result)), ",")
  {
    EscapeOfQuoteFree(u.email);
    EscapeOfQuoteFree(u.loginId);
    EscapeOfQuoteFree(u.name);
    EscapeOfQuoteFree(result);
    var cells := RecordCells(u, result);
    var q := QuoteAll(cells);
    QuoteAllAt(cells, 0);
    QuoteAllAt(cells, 1);
    QuoteAllAt(cells, 2);
    QuoteAllAt(cells, 3);
    assert q == [Quote(u.email), Quote(u.loginId), Quote(u.name), Quote(result)];
    JoinFour(q[0], q[1], q[2], q[3]);
    QuotedCellsText(NatToString(n), u.email, u.loginId, u.name, result);
  }

  lemma JoinFour(a: string, b: string, c: string, d: string)
    ensures JoinWith([a, b, c, d], ",") == a + "," + (b + "," + (c + "," + d))
  {
    JoinCons([a, b, c, d], ",");
    assert [a, b, c, d][1..] == [b, c, d];
    JoinCons([b, c, d], ",");
    assert [b, c, d][1..] == [c, d];
    JoinCons([c, d], ",");
    assert [c, d][1..] == [d];
  }

  lemma QuotedCellsText(ds: string, e: string, l: string, m: string, r: string)
    ensures ds + ",\"" + e + "\",\"" + l + "\",\"" + m + "\",\"" + r + "\""
      == ds + "," + (("\"" + e + "\"") + "," + (("\"" + l + "\"") + "," + (("\"" + m + "\"") + "," + ("\"" + r + "\""))))
  {
  }

  /** Without double quotes in the fields, the field scanner of the CSV
      reader splits a data line back into its row number, which `parseInt`
      reads as the number written, and its four cells. */
  lemma RecordReadsBack(n: nat, u: Identity, result: string)
    requires '"' !in u.email && '"' !in u.loginId && '"' !in u.name && '"' !in result
    ensures SplitFields(Record(n, u, result)) == [NatToString(n), u.email, u.loginId, u.name, result]
    ensures ParseInt(NatToString(n)) == Some(n)
  {
    var ds := NatToString(n);
    var cells := RecordCells(u, result);
    var rest := JoinWith(QuoteAll(cells), ",");
    RecordIsQuoted(n, u, result);
    assert PlainField(ds) by {
      assert forall i :: 0 <= i < |ds| ==> IsDigit(ds[i]);
    }
    assert ds + "," + rest == ds + ("," + rest);
    PlainTextStaysInField(ds, "," + rest, "", []);
    EmptyPrefix(ds);
    FieldStepComma(rest, ds, []);
    assert [] + [ds] == [ds];
    QuotedFieldsRoundTrip(cells, [ds]);
    assert [ds] + cells == [ds, u.email, u.loginId, u.name, result];
    NatToStringParses(n);
  }

  /** The CSV helper; it works on the dashboard's shared state. */
  class UserCSVHandler {
    const app: DashboardApp

    constructor(app: DashboardApp)
      ensures this.app == app
    {
      this.app := app;
    }

    /** `importCSVFile`: with no user in the file nothing changes and no
        callback is made; otherwise the users whose e-mail is new are
        appended, the view returns to page 1, and the callback receives the
        appended and the parsed counts. */
    method ImportCSVFile(csv: string) returns (callback: Option<(nat, nat)>)
      requires app.Valid()
      modifies app
      ensures var users := BrowserParsedUsers(StripBom(csv));
        if users == [] then
          app.allUsers == old(app.allUsers) && app.currentPageNumber == old(app.currentPageNumber) && callback == None
        else
          app.allUsers == MergeImport(old(app.allUsers), users) && app.currentPageNumber == 1 &&
          callback == Some((|app.allUsers| - |old(app.allUsers)|, |users|))
      ensures callback.Some? ==> callback.value.0 <= callback.value.1
      ensures app.Valid()
    {
      var users := ParseCSVData(StripBom(csv));
      callback := MergeUsers(users);
    }

    /** The part of `importCSVFile` after parsing. */
    method MergeUsers(users: seq<Identity>) returns (callback: Option<(nat, nat)>)
      requires app.Valid()
      modifies app
      ensures if users == [] then
          app.allUsers == old(app.allUsers) && app.currentPageNumber == old(app.currentPageNumber) && callback == None
        else
          app.allUsers == MergeImport(old(app.allUsers), users) && app.currentPageNumber == 1 &&
          callback == Some((|app.allUsers| - |old(app.allUsers)|, |users|))
      ensures callback.Some? ==> callback.value.0 <= callback.value.1
      ensures app.Valid()
    {
      if |users| == 0 {
        return None;
      }
      var newUsers := FreshUsers(KnownEmails(app.allUsers), users);
      app.allUsers := app.allUsers + RowsOf(newUsers);
      app.currentPageNumber := 1;
      callback := Some((|newUsers|, |users|));
    }

    /** `downloadResults`: no file for a page without users; otherwise the
        header, then one line per user of the page, built line by line. */
    method DownloadResults(currentUsers: seq<Identity>) returns (file: Option<string>)
      ensures currentUsers == [] ==> file == None
      ensures currentUsers != [] ==> file == Some(ResultsCsv(app.allUsers, currentUsers))
    {
      if |currentUsers| == 0 {
        return None;
      }
      var csvContent := ResultsHeader + "\n";
      var lines := [ResultsHeader] + Records(app.allUsers, currentUsers);
      TerminatedSnoc(lines, 0, "\n");
      assert lines[..0] == [];
      var i := 0;
      while i < |currentUsers|
        invariant 0 <= i <= |currentUsers|
        invariant csvContent == Terminated(lines[..i + 1], "\n")
      {
        var user := currentUsers[i];
        var result := ResultText(app.allUsers, user);
        TerminatedSnoc(lines, i + 1, "\n");
        csvContent := csvContent + Record(i + 1, user, result) + "\n";
        i := i + 1;
      }
      assert lines[..i + 1] == lines;
      return Some(csvContent);
    }
  }
}
