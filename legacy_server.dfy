/** The legacy single-file server (server_old.js): its own naive CSV reader
    for users with a password column, the URL the three upload routes post
    to, and the bulk registration route that posts each parsed user in turn
    and tallies the replies. */
module LegacyServer {
  import opened Text
  import opened NaiveCsv
  import opened Submission
  import CsvParser

  // ---------------------------------------------------------------------------
  // parseCSV
  // ---------------------------------------------------------------------------

  datatype LegacyUser = LegacyUser(email: string, loginId: string, name: string, password: string)

  /** The field a header fills in the `switch` of `parseCSV`. */
  datatype Slot = EmailSlot | LoginIdSlot | NameSlot | PasswordSlot | NoSlot

  function SlotOf(header: string): (s: Slot)
    ensures s == LoginIdSlot <==> header == "loginid" || header == "login_id"
  {
    if header == "email" then EmailSlot
    else if header == "loginid" || header == "login_id" then LoginIdSlot
    else if header == "name" then NameSlot
    else if header == "password" then PasswordSlot
    else NoSlot
  }

  /** The value a field holds after the forEach over the first `n` headers:
      the cell under the last such header of `slot` that is non-empty, or ""
      (unset) when there is none. The cells are already trimmed. */
  function CellUnder(headers: seq<string>, values: seq<string>, slot: Slot, n: nat): string
    requires n <= |headers|
  {
    if n == 0 then ""
    else if SlotOf(headers[n - 1]) == slot && n - 1 < |values| && values[n - 1] != "" then values[n - 1]
    else CellUnder(headers, values, slot, n - 1)
  }

  /** The user a data row yields: rows with fewer than four cells are
      ignored, and a user needs all four fields set. */
  function RowOf(headers: seq<string>, values: seq<string>): Option<LegacyUser> {
    if |values| < 4 then None
    else
      var e := CellUnder(headers, values, EmailSlot, |headers|);
      var l := CellUnder(headers, values, LoginIdSlot, |headers|);
      var n := CellUnder(headers, values, NameSlot, |headers|);
      var p := CellUnder(headers, values, PasswordSlot, |headers|);
      if e != "" && l != "" && n != "" && p != "" then Some(LegacyUser(e, l, n, p)) else None
  }

  /** What each data line yields. */
  function RowsOf(headers: seq<string>, rows: seq<string>): (r: seq<Option<LegacyUser>>)
    ensures |r| == |rows|
    ensures forall k :: 0 <= k < |rows| ==> r[k] == RowOf(headers, NaiveCells(rows[k]))
  {
    seq(|rows|, k requires 0 <= k < |rows| => RowOf(headers, NaiveCells(rows[k])))
  }

  /** The values present among `opts`, in order, as pushing each one found
      collects them. */
  function Collect<T>(opts: seq<Option<T>>): (r: seq<T>)
    ensures |r| <= |opts|
    decreases |opts|
  {
    if opts == [] then []
    else
      var last := opts[|opts| - 1];
      Collect(opts[..|opts| - 1]) + (if last.Some? then [last.value] else [])
  }

  /** The users of the data lines `rows`, in line order. */
  function LegacyUsersOf(headers: seq<string>, rows: seq<string>): seq<LegacyUser> {
    Collect(RowsOf(headers, rows))
  }

  /** The users of the non-blank lines: none without a data line. */
  function UsersOfLegacyLines(lines: seq<string>): seq<LegacyUser> {
    if |lines| < 2 then [] else LegacyUsersOf(NaiveHeaders(lines[0]), lines[1..])
  }

  /** What `parseCSV` returns for the text of an upload (no byte-order mark
      is removed). */
  function ParsedLegacyUsers(csv: string): seq<LegacyUser> {
    UsersOfLegacyLines(NaiveLines(csv))
  }

  /** The forEach over the headers that fills one user object. */
  method ProjectLegacyRow(headers: seq<string>, values: seq<string>)
    returns (email: string, loginId: string, name: string, password: string)
    ensures email == CellUnder(headers, values, EmailSlot, |headers|)
    ensures loginId == CellUnder(headers, values, LoginIdSlot, |headers|)
    ensures name == CellUnder(headers, values, NameSlot, |headers|)
    ensures password == CellUnder(headers, values, PasswordSlot, |headers|)
  {
    email, loginId, name, password := "", "", "", "";
    var i := 0;
    while i < |headers|
      invariant 0 <= i <= |headers|
      invariant email == CellUnder(headers, values, EmailSlot, i)
      invariant loginId == CellUnder(headers, values, LoginIdSlot, i)
      invariant name == CellUnder(headers, values, NameSlot, i)
      invariant password == CellUnder(headers, values, PasswordSlot, i)
    {
      if i < |values| && values[i] != "" {
        match SlotOf(headers[i])
        case EmailSlot => email := values[i];
        case LoginIdSlot => loginId := values[i];
        case NameSlot => name := values[i];
        case PasswordSlot => password := values[i];
        case NoSlot =>
      }
      i := i + 1;
    }
  }

  /** One pass of the loop body: the cells of a row with at least four
      of them projected, and the user kept when all four fields are set. */
  method ReadLegacyRow(headers: seq<string>, values: seq<string>) returns (user: Option<LegacyUser>)
    ensures user == RowOf(headers, values)
  {
    if |values| < 4 {
      return None;
    }
    var email, loginId, name, password := ProjectLegacyRow(headers, values);
    if email != "" && loginId != "" && name != "" && password != "" {
      return Some(LegacyUser(email, loginId, name, password));
    }
    return None;
  }

  /** The loop over the data lines that pushes the users. */
  method CollectLegacyUsers(headers: seq<string>, rows: seq<string>) returns (users: seq<LegacyUser>)
    ensures users == LegacyUsersOf(headers, rows)
  {
    ghost var opts := RowsOf(headers, rows);
    users := [];
    var i := 0;
    while i < |rows|
      invariant 0 <= i <= |rows|
      invariant users == Collect(opts[..i])
    {
      assert opts[..i + 1][..i] == opts[..i];
      var user := ReadLegacyRow(headers, NaiveCells(rows[i]));
      assert user == opts[i];
      if user.Some? {
        users := users + [user.value];
      }
      i := i + 1;
    }
    assert opts[..i] == opts;
  }

  method ReadLegacyUsers(lines: seq<string>) returns (users: seq<LegacyUser>)
    ensures users == UsersOfLegacyLines(lines)
  {
    if |lines| < 2 {
      return [];
    }
    var headers := NaiveHeaders(lines[0]);
    users := CollectLegacyUsers(headers, lines[1..]);
  }

  /** `parseCSV`. */
  method ParseCSV(csv: string) returns (users: seq<LegacyUser>)
    ensures users == ParsedLegacyUsers(csv)
  {
    var lines := NaiveLines(csv);
    users := ReadLegacyUsers(lines);
  }

  // Every user is complete

  predicate CompleteLegacy(u: LegacyUser) {
    CsvParser.Filled(u.email) && CsvParser.Filled(u.loginId) && CsvParser.Filled(u.name) && CsvParser.Filled(u.password)
  }

  predicate AllTrimmed(values: seq<string>) {
    forall k :: 0 <= k < |values| ==> Trim(values[k]) == values[k]
  }

  lemma NaiveCellsTrimmed(line: string)
    ensures AllTrimmed(NaiveCells(line))
  {
    var parts := SplitOn(line, ',');
    forall k | 0 <= k < |parts| ensures Trim(Trim(parts[k])) == Trim(parts[k]) {
      TrimIdempotent(parts[k]);
    }
  }

  /** A field is unset or one of the row's cells. */
  lemma {:induction false} CellUnderIn(headers: seq<string>, values: seq<string>, slot: Slot, n: nat)
    requires n <= |headers|
    ensures var r := CellUnder(headers, values, slot, n); r == "" || r in values
    decreases n
  {
    if n > 0 && !(SlotOf(headers[n - 1]) == slot && n - 1 < |values| && values[n - 1] != "") {
      CellUnderIn(headers, values, slot, n - 1);
    }
  }

  lemma CellUnderTrimmed(headers: seq<string>, values: seq<string>, slot: Slot, n: nat)
    requires n <= |headers| && AllTrimmed(values)
    ensures Trim(CellUnder(headers, values, slot, n)) == CellUnder(headers, values, slot, n)
  {
    var r := CellUnder(headers, values, slot, n);
    CellUnderIn(headers, values, slot, n);
    if r == "" {
      TrimEmpty();
    } else {
      var k :| 0 <= k < |values| && values[k] == r;
    }
  }

  lemma RowOfComplete(headers: seq<string>, line: string)
    ensures var o := RowOf(headers, NaiveCells(line)); o.Some? ==> CompleteLegacy(o.value)
  {
    var values := NaiveCells(line);
    NaiveCellsTrimmed(line);
    CellUnderTrimmed(headers, values, EmailSlot, |headers|);
    CellUnderTrimmed(headers, values, LoginIdSlot, |headers|);
    CellUnderTrimmed(headers, values, NameSlot, |headers|);
    CellUnderTrimmed(headers, values, PasswordSlot, |headers|);
  }

  /** Each value collected comes from one of the options. */
  lemma {:induction false} CollectFrom<T>(opts: seq<Option<T>>, j: nat)
    requires j < |Collect(opts)|
    ensures exists k :: 0 <= k < |opts| && opts[k] == Some(Collect(opts)[j])
    decreases |opts|
  {
    var n := |opts| - 1;
    var front := opts[..n];
    if j < |Collect(front)| {
      CollectFrom(front, j);
      var k :| 0 <= k < |front| && front[k] == Some(Collect(front)[j]);
      assert opts[k] == front[k];
    } else {
      assert opts[n] == Some(Collect(opts)[j]);
    }
  }

  /** Options that all hold a value collect to exactly those values. */
  lemma {:induction false} CollectAll<T>(opts: seq<Option<T>>, values: seq<T>)
    requires |opts| == |values|
    requires forall k :: 0 <= k < |opts| ==> opts[k] == Some(values[k])
    ensures Collect(opts) == values
    decreases |opts|
  {
    if opts != [] {
      var n := |opts| - 1;
      CollectAll(opts[..n], values[..n]);
      assert values[..n] + [values[n]] == values;
    }
  }

  lemma LegacyUsersOfComplete(headers: seq<string>, rows: seq<string>)
    ensures |LegacyUsersOf(headers, rows)| <= |rows|
    ensures forall j :: 0 <= j < |LegacyUsersOf(headers, rows)| ==> CompleteLegacy(LegacyUsersOf(headers, rows)[j])
  {
    var opts := RowsOf(headers, rows);
    var users := Collect(opts);
    forall j | 0 <= j < |users| ensures CompleteLegacy(users[j]) {
      CollectFrom(opts, j);
      var k :| 0 <= k < |opts| && opts[k] == Some(users[j]);
      RowOfComplete(headers, rows[k]);
    }
  }

  /** Every user `parseCSV` returns has a non-empty, trimmed e-mail, login
      id, name and password, and there is at most one user per data line. */
  lemma ParsedLegacyUsersComplete(csv: string)
    ensures var users := ParsedLegacyUsers(csv);
      (forall k :: 0 <= k < |users| ==> CompleteLegacy(users[k])) &&
      (users == [] || |users| < |NaiveLines(csv)|)
  {
    var lines := NaiveLines(csv);
    if |lines| >= 2 {
      LegacyUsersOfComplete(NaiveHeaders(lines[0]), lines[1..]);
    }
  }

  // Headers are read only through the field they fill

  lemma {:induction false} CellUnderBySlot(h1: seq<string>, h2: seq<string>, values: seq<string>, slot: Slot, n: nat)
    requires |h1| == |h2| && n <= |h1|
    requires forall k :: 0 <= k < |h1| ==> SlotOf(h1[k]) == SlotOf(h2[k])
    ensures CellUnder(h1, values, slot, n) == CellUnder(h2, values, slot, n)
    decreases n
  {
    if n > 0 {
      CellUnderBySlot(h1, h2, values, slot, n - 1);
    }
  }

  /** Header lines that agree on the field each column fills read every row
      alike: `loginid` and `login_id` are interchangeable, and so are any two
      headers the switch ignores. */
  lemma RowOfBySlot(h1: seq<string>, h2: seq<string>, values: seq<string>)
    requires |h1| == |h2|
    requires forall k :: 0 <= k < |h1| ==> SlotOf(h1[k]) == SlotOf(h2[k])
    ensures RowOf(h1, values) == RowOf(h2, values)
  {
    CellUnderBySlot(h1, h2, values, EmailSlot, |h1|);
    CellUnderBySlot(h1, h2, values, LoginIdSlot, |h1|);
    CellUnderBySlot(h1, h2, values, NameSlot, |h1|);
    CellUnderBySlot(h1, h2, values, PasswordSlot, |h1|);
  }

  lemma LoginIdAliases(headers: seq<string>, i: nat, values: seq<string>)
    requires i < |headers|
    ensures RowOf(headers[i := "loginid"], values) == RowOf(headers[i := "login_id"], values)
  {
    RowOfBySlot(headers[i := "loginid"], headers[i := "login_id"], values);
  }

  // Round trip

  /** A field the naive reader reads back as it is. */
  predicate PlainValue(v: string) {
    v != "" && PlainCell(v) && '\n' !in v
  }

  predicate PlainUser(u: LegacyUser) {
    PlainValue(u.email) && PlainValue(u.loginId) && PlainValue(u.name) && PlainValue(u.password)
  }

  function UserCells(u: LegacyUser): seq<string> {
    [u.email, u.loginId, u.name, u.password]
  }

  /** A file with a header line and one line per user. */
  function LegacyCsv(header: string, users: seq<LegacyUser>): string {
    JoinWith([header] + UserRows(users), "\n")
  }

  /** A header line that names the e-mail, login id, name and password
      columns in that order, under any of their spellings. */
  predicate NamesFourColumns(header: string) {
    var keys := NaiveHeaders(header);
    '\n' !in header && !IsBlank(header) && |keys| == 4 &&
    SlotOf(keys[0]) == EmailSlot && SlotOf(keys[1]) == LoginIdSlot &&
    SlotOf(keys[2]) == NameSlot && SlotOf(keys[3]) == PasswordSlot
  }

  lemma {:induction false} NoBreakInJoin(parts: seq<string>)
    requires forall k :: 0 <= k < |parts| ==> '\n' !in parts[k]
    ensures '\n' !in JoinWith(parts, ",")
    decreases |parts|
  {
    if |parts| > 1 {
      JoinCons(parts, ",");
      NoBreakInJoin(parts[1..]);
    }
  }

  lemma UserLine(u: LegacyUser)
    requires PlainUser(u)
    ensures var line := JoinWith(UserCells(u), ",");
      NaiveCells(line) == UserCells(u) && '\n' !in line && !IsBlank(line)
  {
    UserLineBreaks(u);
    UserLineCells(u);
    UserLineSolid(u);
  }

  lemma UserLineBreaks(u: LegacyUser)
    requires '\n' !in u.email && '\n' !in u.loginId && '\n' !in u.name && '\n' !in u.password
    ensures '\n' !in JoinWith(UserCells(u), ",")
  {
    NoBreakInJoin(UserCells(u));
  }

  lemma UserLineCells(u: LegacyUser)
    requires PlainCell(u.email) && PlainCell(u.loginId) && PlainCell(u.name) && PlainCell(u.password)
    ensures NaiveCells(JoinWith(UserCells(u), ",")) == UserCells(u)
  {
    FourCells(u.email, u.loginId, u.name, u.password);
  }

  lemma FourCells(a: string, b: string, c: string, d: string)
    requires PlainCell(a) && PlainCell(b) && PlainCell(c) && PlainCell(d)
    ensures NaiveCells(JoinWith([a, b, c, d], ",")) == [a, b, c, d]
  {
    var cells := [a, b, c, d];
    forall k | 0 <= k < 4 ensures PlainCell(cells[k]) {
      if k == 0 { assert cells[k] == a; }
      else if k == 1 { assert cells[k] == b; }
      else if k == 2 { assert cells[k] == c; }
      else { assert cells[k] == d; }
    }
    NaiveCellsOfJoin(cells);
  }

  lemma UserLineSolid(u: LegacyUser)
    requires u.email != "" && Trim(u.email) == u.email
    ensures !IsBlank(JoinWith(UserCells(u), ","))
  {
    var cells := UserCells(u);
    var line := JoinWith(cells, ",");
    JoinCons(cells, ",");
    assert line[0] == u.email[0];
    assert !IsSpace(u.email[0]) by {
      assert TrimStart(u.email)[..|u.email|] == u.email;
    }
    NotBlankIfStartsSolid(line);
  }

  /** A field takes the cell under the last header of its kind whose cell is
      non-empty. */
  lemma {:induction false} LastHeaderWins(headers: seq<string>, values: seq<string>, slot: Slot, n: nat, i: nat)
    requires i < n <= |headers| && i < |values|
    requires SlotOf(headers[i]) == slot && values[i] != ""
    requires forall j :: i < j < n ==> SlotOf(headers[j]) != slot
    ensures CellUnder(headers, values, slot, n) == values[i]
    decreases n
  {
    if n - 1 > i {
      LastHeaderWins(headers, values, slot, n - 1, i);
    }
  }

  lemma RowOfUserCells(headers: seq<string>, u: LegacyUser)
    requires |headers| == 4
    requires SlotOf(headers[0]) == EmailSlot && SlotOf(headers[1]) == LoginIdSlot
    requires SlotOf(headers[2]) == NameSlot && SlotOf(headers[3]) == PasswordSlot
    requires u.email != "" && u.loginId != "" && u.name != "" && u.password != ""
    ensures RowOf(headers, UserCells(u)) == Some(u)
  {
    var v := UserCells(u);
    LastHeaderWins(headers, v, EmailSlot, 4, 0);
    LastHeaderWins(headers, v, LoginIdSlot, 4, 1);
    LastHeaderWins(headers, v, NameSlot, 4, 2);
    LastHeaderWins(headers, v, PasswordSlot, 4, 3);
  }

  /** A file whose header line names the four columns in order, followed by
      one line of four plain fields per user, is read back as exactly those
      users, in order. */
  lemma LegacyRoundTrip(header: string, users: seq<LegacyUser>)
    requires NamesFourColumns(header)
    requires forall k :: 0 <= k < |users| ==> PlainUser(users[k])
    ensures ParsedLegacyUsers(LegacyCsv(header, users)) == users
  {
    var rows := UserRows(users);
    var lines := [header] + rows;
    LegacyLines(header, users);
    assert ParsedLegacyUsers(LegacyCsv(header, users)) == UsersOfLegacyLines(lines);
    if users != [] {
      assert lines[1..] == rows;
      UserRowsRead(NaiveHeaders(header), users);
    }
  }

  function UserRows(users: seq<LegacyUser>): seq<string> {
    seq(|users|, k requires 0 <= k < |users| => JoinWith(UserCells(users[k]), ","))
  }

  /** The written file splits back into its header line and user lines. */
  lemma LegacyLines(header: string, users: seq<LegacyUser>)
    requires '\n' !in header && !IsBlank(header)
    requires forall k :: 0 <= k < |users| ==> PlainUser(users[k])
    ensures NaiveLines(LegacyCsv(header, users)) == [header] + UserRows(users)
  {
    var rows := UserRows(users);
    var lines := [header] + rows;
    UserRowsShape(users);
    forall k | 0 <= k < |lines| ensures '\n' !in lines[k] && !IsBlank(lines[k]) {
      if k > 0 {
        assert lines[k] == rows[k - 1];
      }
    }
    NaiveLinesRoundTrip(lines);
  }

  lemma UserRowsShape(users: seq<LegacyUser>)
    requires forall k :: 0 <= k < |users| ==> PlainUser(users[k])
    ensures var rows := UserRows(users);
      forall k :: 0 <= k < |rows| ==> '\n' !in rows[k] && !IsBlank(rows[k])
  {
    forall k | 0 <= k < |users| ensures '\n' !in UserRows(users)[k] && !IsBlank(UserRows(users)[k]) {
      UserLine(users[k]);
    }
  }

  /** Each user line is read back as its user. */
  lemma UserRowsRead(headers: seq<string>, users: seq<LegacyUser>)
    requires |headers| == 4
    requires SlotOf(headers[0]) == EmailSlot && SlotOf(headers[1]) == LoginIdSlot
    requires SlotOf(headers[2]) == NameSlot && SlotOf(headers[3]) == PasswordSlot
    requires forall k :: 0 <= k < |users| ==> PlainUser(users[k])
    ensures LegacyUsersOf(headers, UserRows(users)) == users
  {
    var rows := UserRows(users);
    var opts := RowsOf(headers, rows);
    forall k | 0 <= k < |users| ensures opts[k] == Some(users[k]) {
      UserLine(users[k]);
      RowOfUserCells(headers, users[k]);
    }
    CollectAll(opts, users);
  }

  // ---------------------------------------------------------------------------
  // The routes
  // ---------------------------------------------------------------------------

  /** A file as multer hands it over: its text read as UTF-8, its name and
      its MIME type. */
  datatype UploadedFile = UploadedFile(text: string, filename: string, mimetype: string)

  /** What `callExternalAPI` reports: a 2xx reply, or the message of the
      error axios threw. */
  datatype ApiResult = Posted | PostFailed(error: string)

  datatype Payload = FilePayload(file: string, filename: string, mimetype: string) | UserPayload(user: LegacyUser)

  /** One POST: where to, what, and the Authorization header. */
  datatype Call = Call(url: string, payload: Payload, authorization: string)

  datatype BulkEntry = BulkEntry(user: LegacyUser, success: bool, error: Option<string>)

  /** Why a route refused a request. */
  datatype Refusal = NoFile | NoIpOrToken | NoCsvFile | NoTargetOrToken | NoValidUsers

  /** The message sent with each refusal. */
  function RefusalText(r: Refusal): string {
    match r
    case NoFile => "파일이 필요합니다."
    case NoIpOrToken => "IP 주소와 API Token이 필요합니다."
    case NoCsvFile => "CSV 파일이 필요합니다."
    case NoTargetOrToken => "대상 URL과 API Token이 필요합니다."
    case NoValidUsers => "CSV 파일에 유효한 사용자 데이터가 없습니다."
  }

  /** The JSON a route answers with; a rejection is sent with status 400 and
      `success: false`, the others with 200. `BulkDone` always stands for
      `success: true`, whatever the counts in its message. */
  datatype LegacyResponse =
    | Rejected(reason: Refusal)
    | Answered(success: bool, message: string, error: Option<string>)
    | BulkDone(message: string, results: seq<BulkEntry>)

  /** The POSTs a route made and what it answered. */
  datatype Handled = Handled(calls: seq<Call>, response: LegacyResponse)

  function StatusOf(r: LegacyResponse): nat {
    if r.Rejected? then 400 else 200
  }

  /** `Bearer ${token}`. */
  function Bearer(token: string): string {
    "Bearer " + token
  }

  datatype Target = ServerData | DatabaseData | UserData

  function TargetPath(t: Target): string {
    match t
    case ServerData => "/api/server"
    case DatabaseData => "/api/database"
    case UserData => "/api/user"
  }

  function SentText(t: Target): string {
    match t
    case ServerData => "서버 데이터가 성공적으로 전송되었습니다."
    case DatabaseData => "DB 데이터가 성공적으로 전송되었습니다."
    case UserData => "사용자 데이터가 성공적으로 전송되었습니다."
  }

  function NotSentText(t: Target): string {
    match t
    case ServerData => "서버 데이터 전송에 실패했습니다."
    case DatabaseData => "DB 데이터 전송에 실패했습니다."
    case UserData => "사용자 데이터 전송에 실패했습니다."
  }

  /** `http${https === 'true' ? 's' : ''}://${ip}${path}`. */
  function UploadUrl(https: string, ip: string, path: string): string {
    "http" + (if https == "true" then "s" else "") + "://" + ip + path
  }

  predicate StartsWith(s: string, p: string) {
    |p| <= |s| && s[..|p|] == p
  }

  /** The scheme is https exactly when the form field is the text 'true'
      (not 'TRUE', not '1'); otherwise it is http. Either way the address
      and the path follow the scheme unchanged. */
  lemma UploadScheme(https: string, ip: string, path: string)
    ensures StartsWith(UploadUrl(https, ip, path), "https://") <==> https == "true"
    ensures https != "true" ==> UploadUrl(https, ip, path) == "http://" + ip + path
    ensures https == "true" ==> UploadUrl(https, ip, path) == "https://" + ip + path
  {
    var url := UploadUrl(https, ip, path);
    if https != "true" {
      assert url == "http://" + ip + path;
      assert url[4] == ':';
    } else {
      assert url == "https://" + ip + path;
    }
  }

  /** `result.error || null`. */
  function ErrorOrNull(result: ApiResult): (r: Option<string>)
    ensures r.Some? <==> result.PostFailed? && result.error != ""
  {
    if result.PostFailed? && result.error != "" then Some(result.error) else None
  }

  /** `/api/upload/server`, `/api/upload/database` and `/api/upload/user`: a
      file first, then an address and a token; the file's text is forwarded
      as it is, and the reply says only whether the POST went through. */
  function UploadRoute(target: Target, file: Option<UploadedFile>, ip: string, https: string, token: string,
                       result: ApiResult): (h: Handled)
    ensures h.response.Rejected? <==> file.None? || ip == "" || token == ""
    ensures file.None? ==> h == Handled([], Rejected(NoFile))
    ensures file.Some? && (ip == "" || token == "") ==> h == Handled([], Rejected(NoIpOrToken))
    ensures !h.response.Rejected? ==>
      h.calls == [Call(UploadUrl(https, ip, TargetPath(target)),
                       FilePayload(file.value.text, file.value.filename, file.value.mimetype), Bearer(token))] &&
      h.response.Answered? && (h.response.success <==> result.Posted?) &&
      h.response.message == (if result.Posted? then SentText(target) else NotSentText(target)) &&
      h.response.error == ErrorOrNull(result)
  {
    if file.None? then Handled([], Rejected(NoFile))
    else if ip == "" || token == "" then Handled([], Rejected(NoIpOrToken))
    else
      var f := file.value;
      var call := Call(UploadUrl(https, ip, TargetPath(target)), FilePayload(f.text, f.filename, f.mimetype), Bearer(token));
      var ok := result.Posted?;
      Handled([call], Answered(ok, if ok then SentText(target) else NotSentText(target), ErrorOrNull(result)))
  }

  // The bulk route

  function UserCall(targetUrl: string, token: string, u: LegacyUser): Call {
    Call(targetUrl + "/api/external/v2/users", UserPayload(u), Bearer(token))
  }

  /** `{ user, success: result.success, error: result.error }`: the error is
      absent after a success. */
  function EntryOf(u: LegacyUser, result: ApiResult): (e: BulkEntry)
    ensures e.user == u && (e.success <==> result.Posted?)
    ensures e.error.Some? <==> result.PostFailed?
  {
    match result
    case Posted => BulkEntry(u, true, None)
    case PostFailed(error) => BulkEntry(u, false, Some(error))
  }

  function Successes(results: seq<BulkEntry>): (r: seq<bool>)
    ensures |r| == |results|
    ensures forall k :: 0 <= k < |r| ==> (r[k] <==> results[k].success)
  {
    seq(|results|, k requires 0 <= k < |results| => results[k].success)
  }

  /** The `for` loop that posts each user and pushes one entry per reply. */
  method RegisterEach(users: seq<LegacyUser>, targetUrl: string, token: string, replies: seq<ApiResult>)
    returns (calls: seq<Call>, results: seq<BulkEntry>)
    requires |users| <= |replies|
    ensures |calls| == |users| && |results| == |users|
    ensures forall k :: 0 <= k < |users| ==>
      calls[k] == UserCall(targetUrl, token, users[k]) && results[k] == EntryOf(users[k], replies[k])
  {
    calls, results := [], [];
    var i := 0;
    while i < |users|
      invariant 0 <= i <= |users|
      invariant |calls| == i && |results| == i
      invariant forall k :: 0 <= k < i ==>
        calls[k] == UserCall(targetUrl, token, users[k]) && results[k] == EntryOf(users[k], replies[k])
    {
      var user := users[i];
      calls := calls + [UserCall(targetUrl, token, user)];
      var result := replies[i];
      results := results + [EntryOf(user, result)];
      i := i + 1;
    }
  }

  /** The answer to a bulk request whose file held `users`: one POST per
      user in order, one entry per reply in order, and the two counts in the
      message. */
  predicate BulkAnswered(users: seq<LegacyUser>, targetUrl: string, token: string, replies: seq<ApiResult>, h: Handled)
    requires |users| <= |replies|
  {
    h.response.BulkDone? && |h.calls| == |users| && |h.response.results| == |users| &&
    (forall k :: 0 <= k < |users| ==>
      h.calls[k] == UserCall(targetUrl, token, users[k]) && h.response.results[k] == EntryOf(users[k], replies[k])) &&
    var s := SuccessCount(Successes(h.response.results));
    h.response.message == TallyMessage(s, |users| - s)
  }

  /** The part of `/api/users/bulk` after a non-empty list of users was
      parsed: each user posted in turn, then the tally. */
  method RegisterParsed(users: seq<LegacyUser>, targetUrl: string, token: string, replies: seq<ApiResult>)
    returns (h: Handled)
    requires |users| <= |replies|
    ensures BulkAnswered(users, targetUrl, token, replies, h)
  {
    var calls, results := RegisterEach(users, targetUrl, token, replies);
    var successCount := SuccessCount(Successes(results));
    var failCount := |results| - successCount;
    h := Handled(calls, BulkDone(TallyMessage(successCount, failCount), results));
  }

  /** `/api/users/bulk`: a file first, then a target URL and a token; the
      file is parsed without removing a byte-order mark, a file without users
      is refused, and otherwise each user is posted in turn. The answer is a
      success whatever the replies, with the two counts in its message. The
      users parsed are returned as well. */
  method BulkRegister(file: Option<UploadedFile>, targetUrl: string, token: string, replies: seq<ApiResult>)
    returns (users: seq<LegacyUser>, h: Handled)
    requires file.Some? ==> |ParsedLegacyUsers(file.value.text)| <= |replies|
    ensures file.None? ==> h == Handled([], Rejected(NoCsvFile))
    ensures file.Some? && (targetUrl == "" || token == "") ==> h == Handled([], Rejected(NoTargetOrToken))
    ensures file.Some? && targetUrl != "" && token != "" ==> users == ParsedLegacyUsers(file.value.text)
    ensures users == [] ==> h.calls == [] && h.response.Rejected?
    ensures file.Some? && targetUrl != "" && token != "" && users == [] ==> h == Handled([], Rejected(NoValidUsers))
    ensures users != [] ==> |users| <= |replies| && BulkAnswered(users, targetUrl, token, replies, h)
  {
    users := [];
    if file.None? {
      return users, Handled([], Rejected(NoCsvFile));
    }
    if targetUrl == "" || token == "" {
      return users, Handled([], Rejected(NoTargetOrToken));
    }
    users := ParseCSV(file.value.text);
    if |users| == 0 {
      return users, Handled([], Rejected(NoValidUsers));
    }
    h := RegisterParsed(users, targetUrl, token, replies);
  }

  /** The two counts of the bulk answer add up to the number of users, the
      success count is the number of replies that went through, and no
      failure is counted exactly when every POST went through. */
  lemma BulkTally(users: seq<LegacyUser>, replies: seq<ApiResult>, results: seq<BulkEntry>)
    requires |users| <= |replies| && |results| == |users|
    requires forall k :: 0 <= k < |users| ==> results[k] == EntryOf(users[k], replies[k])
    ensures var s := SuccessCount(Successes(results));
      s + (|results| - s) == |users| &&
      (s == |users| <==> forall k :: 0 <= k < |users| ==> replies[k].Posted?)
  {
    AllSucceeded(Successes(results));
  }
}
