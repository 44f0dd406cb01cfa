/** The user manager of the dashboard (frontend/js/userManager.js): the
    operations on the shared user table, and the sequential registration loop
    that moves each submitted row from '' through 'processing' to 'success' or
    'error'. The server's replies are supplied as a sequence, one per
    submitted user. */
module UserManager {
  import opened Text
  import opened CsvParser
  import opened FrontendCsv
  import opened Pagination
  import opened Dashboard
  import Submission

  /** What one `POST /api/users` gave the loop: the parsed JSON body
      (`success` and `message || ''`), or an exception from `fetch` or
      `response.json()`. */
  datatype Reply = Answered(success: bool, message: string) | Threw

  /** `u.email === user.email && u.loginId === user.loginId && u.name === user.name`. */
  predicate Matches(r: UserRow, u: Identity) {
    r.email == u.email && r.loginId == u.loginId && r.name == u.name
  }

  /** `allUsers.findIndex(...)`: the first matching row, or -1. */
  function FindIndex(rows: seq<UserRow>, u: Identity): (r: int)
    ensures -1 <= r < |rows|
    ensures r >= 0 ==> Matches(rows[r], u) && forall k :: 0 <= k < r ==> !Matches(rows[k], u)
    ensures r == -1 ==> forall k :: 0 <= k < |rows| ==> !Matches(rows[k], u)
  {
    if rows == [] then -1
    else if Matches(rows[0], u) then 0
    else var r := FindIndex(rows[1..], u); if r == -1 then -1 else r + 1
  }

  /** Two tables with the same rows up to their result columns. */
  predicate SameKeys(a: seq<UserRow>, b: seq<UserRow>) {
    |a| == |b| && forall k :: 0 <= k < |a| ==> a[k].email == b[k].email && a[k].loginId == b[k].loginId && a[k].name == b[k].name
  }

  /** Updating result columns never moves the row a user is found at. */
  lemma {:induction false} FindIndexSameKeys(a: seq<UserRow>, b: seq<UserRow>, u: Identity)
    requires SameKeys(a, b)
    ensures FindIndex(a, u) == FindIndex(b, u)
    decreases |a|
  {
    if a != [] {
      assert SameKeys(a[1..], b[1..]);
      FindIndexSameKeys(a[1..], b[1..], u);
    }
  }

  /** The state after the loop: the table, the `success` flag of each reply
      received, and whether an exception ended the loop early. */
  datatype Run = Run(rows: seq<UserRow>, outcomes: seq<bool>, aborted: bool)

  /** The loop of `registerUsers` and `retryFailedUsers`, from submission `i`
      on: a user not found is skipped; a found row is marked 'processing',
      then set to 'success' or 'error' with the reply's message; an exception
      leaves the row 'processing' and ends the loop. */
  function Submit(rows: seq<UserRow>, users: seq<Identity>, replies: seq<Reply>, i: nat): Run
    requires i <= |users| <= |replies|
    decreases |users| - i
  {
    if i == |users| then Run(rows, [], false)
    else
      var idx := FindIndex(rows, users[i]);
      if idx < 0 then Submit(rows, users, replies, i + 1)
      else match replies[i]
        case Threw => Run(rows[idx := rows[idx].(result := Processing)], [], true)
        case Answered(ok, msg) =>
          var next := Submit(rows[idx := rows[idx].(result := if ok then Succeeded else Failed, message := msg)], users, replies, i + 1);
          Run(next.rows, [ok] + next.outcomes, next.aborted)
  }

  /** The loop never changes a row's e-mail, login id or name, nor the
      number of rows. */
  lemma {:induction false} SubmitKeepsKeys(rows: seq<UserRow>, users: seq<Identity>, replies: seq<Reply>, i: nat)
    requires i <= |users| <= |replies|
    ensures SameKeys(rows, Submit(rows, users, replies, i).rows)
    decreases |users| - i
  {
    if i < |users| {
      var idx := FindIndex(rows, users[i]);
      if idx < 0 {
        SubmitKeepsKeys(rows, users, replies, i + 1);
      } else if replies[i].Answered? {
        var ok, msg := replies[i].success, replies[i].message;
        var rows1 := rows[idx := rows[idx].(result := if ok then Succeeded else Failed, message := msg)];
        SubmitKeepsKeys(rows1, users, replies, i + 1);
      }
    }
  }

  /** A row no remaining submission is found at keeps its result and message. */
  lemma {:induction false} SubmitFrame(rows: seq<UserRow>, users: seq<Identity>, replies: seq<Reply>, i: nat, k: int)
    requires i <= |users| <= |replies| && 0 <= k < |rows|
    requires forall j :: i <= j < |users| ==> FindIndex(rows, users[j]) != k
    ensures |Submit(rows, users, replies, i).rows| == |rows|
    ensures Submit(rows, users, replies, i).rows[k] == rows[k]
    decreases |users| - i
  {
    SubmitKeepsKeys(rows, users, replies, i);
    if i < |users| {
      var idx := FindIndex(rows, users[i]);
      if idx < 0 {
        SubmitFrame(rows, users, replies, i + 1, k);
      } else if replies[i].Answered? {
        var ok, msg := replies[i].success, replies[i].message;
        var rows1 := rows[idx := rows[idx].(result := if ok then Succeeded else Failed, message := msg)];
        assert SameKeys(rows, rows1);
        forall j | i + 1 <= j < |users| ensures FindIndex(rows1, users[j]) != k {
          FindIndexSameKeys(rows, rows1, users[j]);
        }
        SubmitFrame(rows1, users, replies, i + 1, k);
      }
    }
  }

  /** The outcomes `o` already collected, before the rest `r` of the run. */
  function Prepend(o: seq<bool>, r: Run): Run {
    Run(r.rows, o + r.outcomes, r.aborted)
  }

  lemma PrependStep(o: seq<bool>, ok: bool, r: Run)
    ensures Prepend(o, Run(r.rows, [ok] + r.outcomes, r.aborted)) == Prepend(o + [ok], r)
  {
    assert o + ([ok] + r.outcomes) == (o + [ok]) + r.outcomes;
  }

  lemma PrependEnd(o: seq<bool>, rows: seq<UserRow>)
    ensures Prepend(o, Run(rows, [], false)) == Run(rows, o, false)
    ensures Prepend(o, Run(rows, [], true)) == Run(rows, o, true)
  {
    assert o + [] == o;
  }

  /** Every reply from submission `i` on is an answer, no exception. */
  predicate AllAnswered(replies: seq<Reply>, i: nat, n: nat) {
    forall j :: i <= j < n && j < |replies| ==> replies[j].Answered?
  }

  /** With every reply answered, the row a submission is last found at ends
      'success' exactly when that reply's `success` is set, 'error' otherwise,
      and carries that reply's message; the loop is not cut short. */
  lemma {:induction false} LastReplyDecides(rows: seq<UserRow>, users: seq<Identity>, replies: seq<Reply>, i: nat, j: nat)
    requires i <= j < |users| <= |replies|
    requires AllAnswered(replies, i, |users|)
    requires FindIndex(rows, users[j]) >= 0
    requires forall m :: j < m < |users| ==> FindIndex(rows, users[m]) != FindIndex(rows, users[j])
    ensures var r := Submit(rows, users, replies, i); var k := FindIndex(rows, users[j]);
      !r.aborted && |r.rows| == |rows| &&
      r.rows[k].result == (if replies[j].success then Succeeded else Failed) &&
      r.rows[k].message == replies[j].message
    decreases j - i
  {
    var idx := FindIndex(rows, users[i]);
    var k := FindIndex(rows, users[j]);
    NotAborted(rows, users, replies, i);
    SubmitKeepsKeys(rows, users, replies, i);
    if idx < 0 {
      LastReplyDecides(rows, users, replies, i + 1, j);
    } else {
      var ok, msg := replies[i].success, replies[i].message;
      var rows1 := rows[idx := rows[idx].(result := if ok then Succeeded else Failed, message := msg)];
      assert SameKeys(rows, rows1);
      FindIndexSameKeys(rows, rows1, users[j]);
      forall m | j < m < |users| ensures FindIndex(rows1, users[m]) != k {
        FindIndexSameKeys(rows, rows1, users[m]);
      }
      if i == j {
        SubmitFrame(rows1, users, replies, i + 1, k);
      } else {
        LastReplyDecides(rows1, users, replies, i + 1, j);
      }
    }
  }

  /** With every reply answered the loop runs to the end. */
  lemma {:induction false} NotAborted(rows: seq<UserRow>, users: seq<Identity>, replies: seq<Reply>, i: nat)
    requires i <= |users| <= |replies|
    requires AllAnswered(replies, i, |users|)
    ensures !Submit(rows, users, replies, i).aborted
    decreases |users| - i
  {
    if i < |users| {
      var idx := FindIndex(rows, users[i]);
      if idx < 0 {
        NotAborted(rows, users, replies, i + 1);
      } else {
        var ok, msg := replies[i].success, replies[i].message;
        NotAborted(rows[idx := rows[idx].(result := if ok then Succeeded else Failed, message := msg)], users, replies, i + 1);
      }
    }
  }

  /** The submissions from `i` on whose user is in the table. */
  function Found(rows: seq<UserRow>, users: seq<Identity>, i: nat): nat
    requires i <= |users|
    decreases |users| - i
  {
    if i == |users| then 0 else (if FindIndex(rows, users[i]) >= 0 then 1 else 0) + Found(rows, users, i + 1)
  }

  lemma {:induction false} FoundSameKeys(a: seq<UserRow>, b: seq<UserRow>, users: seq<Identity>, i: nat)
    requires i <= |users| && SameKeys(a, b)
    ensures Found(a, users, i) == Found(b, users, i)
    decreases |users| - i
  {
    if i < |users| {
      FindIndexSameKeys(a, b, users[i]);
      FoundSameKeys(a, b, users, i + 1);
    }
  }

  /** `results.length`: with every reply answered, one result per submitted
      user that is in the table; a user not found is skipped. */
  lemma {:induction false} OutcomesCount(rows: seq<UserRow>, users: seq<Identity>, replies: seq<Reply>, i: nat)
    requires i <= |users| <= |replies|
    requires AllAnswered(replies, i, |users|)
    ensures |Submit(rows, users, replies, i).outcomes| == Found(rows, users, i)
    decreases |users| - i
  {
    if i < |users| {
      var idx := FindIndex(rows, users[i]);
      if idx < 0 {
        OutcomesCount(rows, users, replies, i + 1);
      } else {
        var ok, msg := replies[i].success, replies[i].message;
        var rows1 := rows[idx := rows[idx].(result := if ok then Succeeded else Failed, message := msg)];
        OutcomesCount(rows1, users, replies, i + 1);
        FoundSameKeys(rows, rows1, users, i + 1);
      }
    }
  }

  /** The users `registerUsers` submits: the page's users with all three
      fields set. */
  function Submittable(page: seq<Identity>): (r: seq<Identity>)
    ensures |r| <= |page|
    ensures forall u :: u in r <==> u in page && u.email != "" && u.loginId != "" && u.name != ""
  {
    if page == [] then []
    else (if page[0].email != "" && page[0].loginId != "" && page[0].name != "" then [page[0]] else []) + Submittable(page[1..])
  }

  /** The rows the retry button counts and `retryFailedUsers` resubmits. */
  predicate Retryable(r: UserRow) {
    r.result == Failed && r.email != "" && r.loginId != "" && r.name != ""
  }

  /** `allUsers.filter(user => user.result === 'error' && user.email && user.loginId && user.name)`. */
  function FailedUsers(rows: seq<UserRow>): (r: seq<Identity>)
    ensures |r| <= |rows|
    ensures forall u :: u in r <==> exists k :: 0 <= k < |rows| && Retryable(rows[k]) && Matches(rows[k], u)
  {
    if rows == [] then []
    else
      var rest := FailedUsers(rows[1..]);
      assert forall k :: 1 <= k < |rows| ==> rows[k] == rows[1..][k - 1];
      (if Retryable(rows[0]) then [Identity(rows[0].email, rows[0].loginId, rows[0].name)] else []) + rest
  }

  /** A failed row behind an earlier row with the same e-mail, login id and
      name is never the one a retry updates: the lookup lands on the earlier
      row, so the failed row stays 'error'. */
  lemma RetryUpdatesFirstTwin(u: Identity, ok: bool, msg: string)
    requires u.email != "" && u.loginId != "" && u.name != ""
    ensures var rows := [UserRow(u.email, u.loginId, u.name, Succeeded, ""), UserRow(u.email, u.loginId, u.name, Failed, "")];
      FailedUsers(rows) == [u] &&
      |Submit(rows, FailedUsers(rows), [Answered(ok, msg)], 0).rows| == 2 &&
      Submit(rows, FailedUsers(rows), [Answered(ok, msg)], 0).rows[1] == rows[1]
  {
    var rows := [UserRow(u.email, u.loginId, u.name, Succeeded, ""), UserRow(u.email, u.loginId, u.name, Failed, "")];
    assert FailedUsers(rows[1..]) == [Identity(u.email, u.loginId, u.name)];
    assert FindIndex(rows, u) == 0;
  }

  /** A longer table keeps a valid current page valid. */
  lemma ValidAfterGrowth(app: DashboardApp, rows: seq<UserRow>)
    requires app.Valid() && |app.allUsers| <= |rows|
    ensures 1 <= app.currentPageNumber && (app.currentPageNumber <= CeilDiv(|rows|, UsersPerPage) || app.currentPageNumber == 1)
  {
    CeilDivMono(|app.allUsers|, |rows|, UsersPerPage);
  }

  /** The user manager; it works on the dashboard's shared state. */
  class UserManager {
    const app: DashboardApp

    constructor(app: DashboardApp)
      ensures this.app == app
    {
      this.app := app;
    }

    /** `importCSVFile`: the browser reader, a leading byte-order mark
        removed; the users whose e-mail is new are appended; the current page
        is left as it was. */
    method ImportCSVFile(csv: string)
      requires app.Valid()
      modifies app
      ensures app.allUsers == MergeImport(old(app.allUsers), BrowserParsedUsers(StripBom(csv)))
      ensures app.currentPageNumber == old(app.currentPageNumber)
      ensures app.Valid()
    {
      var users := ParseCSVData(StripBom(csv));
      var rows := app.allUsers;
      if |users| == 0 {
        assert MergeImport(rows, users) == rows by {
          assert FreshUsers(KnownEmails(rows), users) == [];
        }
        return;
      }
      var newUsers := FreshUsers(KnownEmails(rows), users);
      ValidAfterGrowth(app, rows + RowsOf(newUsers));
      app.allUsers := rows + RowsOf(newUsers);
    }

    /** `addUserRow`: one blank row at the end, and the view moves to the
        last page. */
    method AddUserRow()
      requires app.Valid()
      modifies app
      ensures app.allUsers == old(app.allUsers) + [BlankRow]
      ensures app.currentPageNumber == app.TotalPages() >= 1
      ensures app.Valid()
    {
      app.allUsers := app.allUsers + [BlankRow];
      app.currentPageNumber := CeilDiv(|app.allUsers|, UsersPerPage);
    }

    /** `addMultipleRows`: a count read with `parseInt(value) || 0`; outside
        1..1000 nothing changes; otherwise the rows with no field set are
        dropped, `count` blank rows are appended and the view moves to the
        last page. */
    method AddMultipleRows(input: string)
      requires app.Valid()
      modifies app
      ensures var count := ParseIntOr(input, 0);
        if count <= 0 || count > 1000 then
          app.allUsers == old(app.allUsers) && app.currentPageNumber == old(app.currentPageNumber)
        else
          app.allUsers == FilledRows(old(app.allUsers)) + Blanks(count) &&
          app.currentPageNumber == app.TotalPages()
      ensures app.Valid()
    {
      var count := ParseIntOr(input, 0);
      if count <= 0 {
        return;
      }
      if count > 1000 {
        return;
      }
      app.allUsers := FilledRows(app.allUsers);
      var kept := app.allUsers;
      var i := 0;
      while i < count
        invariant 0 <= i <= count
        invariant app.allUsers == kept + Blanks(i)
      {
        app.allUsers := app.allUsers + [BlankRow];
        i := i + 1;
      }
      app.currentPageNumber := CeilDiv(|app.allUsers|, UsersPerPage);
    }

    /** `removeUserRow`: refused while at most one row is left; a row index
        outside the table raises before anything changes; once confirmed the
        row is removed and the current page is clamped to the page count. */
    method RemoveUserRow(index: int, confirmed: bool)
      requires app.Valid()
      modifies app
      ensures var n := |old(app.allUsers)|;
        if n <= 1 || !(0 <= index < n) || !confirmed then
          app.allUsers == old(app.allUsers) && app.currentPageNumber == old(app.currentPageNumber)
        else
          app.allUsers == old(app.allUsers)[..index] + old(app.allUsers)[index + 1..] &&
          app.currentPageNumber == (if old(app.currentPageNumber) > app.TotalPages() then app.TotalPages() else old(app.currentPageNumber))
      ensures app.Valid()
    {
      if |app.allUsers| <= 1 {
        return;
      }
      if !(0 <= index < |app.allUsers|) {
        return;
      }
      if confirmed {
        app.allUsers := app.allUsers[..index] + app.allUsers[index + 1..];
        var totalPages := CeilDiv(|app.allUsers|, UsersPerPage);
        if app.currentPageNumber > totalPages {
          app.currentPageNumber := totalPages;
        }
      }
    }

    /** `clearUserTable`: a non-empty table, once confirmed, is emptied and
        the view returns to page 1. */
    method ClearUserTable(confirmed: bool)
      requires app.Valid()
      modifies app
      ensures if old(app.allUsers) != [] && confirmed then app.allUsers == [] && app.currentPageNumber == 1
        else app.allUsers == old(app.allUsers) && app.currentPageNumber == old(app.currentPageNumber)
      ensures app.Valid()
    {
      if |app.allUsers| == 0 {
        return;
      }
      if confirmed {
        app.allUsers := [];
        app.currentPageNumber := 1;
      }
    }

    /** `changePage(direction)`: moves only onto a page of the table. */
    method ChangePage(direction: int)
      requires app.Valid()
      modifies app
      ensures app.allUsers == old(app.allUsers)
      ensures app.currentPageNumber == PageAfter(old(app.currentPageNumber), app.TotalPages(), old(app.currentPageNumber) + direction)
      ensures app.Valid()
    {
      var totalPages := CeilDiv(|app.allUsers|, UsersPerPage);
      var newPage := app.currentPageNumber + direction;
      if newPage >= 1 && newPage <= totalPages {
        app.currentPageNumber := newPage;
      }
    }

    /** `goToPage(page)`: moves only onto a page of the table. */
    method GoToPage(page: int)
      requires app.Valid()
      modifies app
      ensures app.allUsers == old(app.allUsers)
      ensures app.currentPageNumber == PageAfter(old(app.currentPageNumber), app.TotalPages(), page)
      ensures app.Valid()
    {
      var totalPages := CeilDiv(|app.allUsers|, UsersPerPage);
      if page >= 1 && page <= totalPages {
        app.currentPageNumber := page;
      }
    }

    /** The submission loop shared by `registerUsers` and `retryFailedUsers`. */
    method SubmitUsers(users: seq<Identity>, replies: seq<Reply>) returns (outcomes: seq<bool>, aborted: bool)
      requires app.Valid()
      requires |users| <= |replies|
      modifies app
      ensures var r := Submit(old(app.allUsers), users, replies, 0);
        app.allUsers == r.rows && outcomes == r.outcomes && aborted == r.aborted
      ensures app.currentPageNumber == old(app.currentPageNumber)
      ensures app.Valid()
    {
      outcomes := [];
      aborted := false;
      var i := 0;
      assert Prepend([], Submit(app.allUsers, users, replies, 0)) == Submit(app.allUsers, users, replies, 0);
      while i < |users|
        invariant 0 <= i <= |users|
        invariant app.currentPageNumber == old(app.currentPageNumber)
        invariant |app.allUsers| == |old(app.allUsers)|
        invariant Submit(old(app.allUsers), users, replies, 0) == Prepend(outcomes, Submit(app.allUsers, users, replies, i))
      {
        var userIndex := FindIndex(app.allUsers, users[i]);
        if userIndex == -1 {
          i := i + 1;
          continue;
        }
        var before := app.allUsers;
        app.allUsers := app.allUsers[userIndex := app.allUsers[userIndex].(result := Processing)];
        match replies[i] {
          case Threw =>
            aborted := true;
            PrependEnd(outcomes, app.allUsers);
            return;
          case Answered(ok, msg) =>
            app.allUsers := app.allUsers[userIndex := app.allUsers[userIndex].(result := if ok then Succeeded else Failed, message := msg)];
            assert app.allUsers == before[userIndex := before[userIndex].(result := if ok then Succeeded else Failed, message := msg)];
            PrependStep(outcomes, ok, Submit(app.allUsers, users, replies, i + 1));
            outcomes := outcomes + [ok];
        }
        i := i + 1;
      }
      PrependEnd(outcomes, app.allUsers);
    }

    /** `registerUsers`: nothing happens without a target URL, a token and a
        default password, with an empty table, or when no user of the page
        has all three fields; otherwise those users go through the loop.
        `aborted` says a reply threw: the catch then shows an error and no
        completion message. Otherwise the counts are those of the completion
        message. */
    method RegisterUsers(targetUrl: string, token: string, defaultPassword: string, page: seq<Identity>, replies: seq<Reply>)
      returns (successCount: nat, failCount: nat, aborted: bool)
      requires app.Valid()
      requires |page| <= |replies|
      modifies app
      ensures var users := Submittable(page);
        if targetUrl == "" || token == "" || defaultPassword == "" || old(app.allUsers) == [] || users == [] then
          app.allUsers == old(app.allUsers) && successCount == 0 && failCount == 0 && !aborted
        else
          var r := Submit(old(app.allUsers), users, replies, 0);
          app.allUsers == r.rows && aborted == r.aborted &&
          successCount == Submission.SuccessCount(r.outcomes) && successCount + failCount == |r.outcomes|
      ensures app.currentPageNumber == old(app.currentPageNumber)
      ensures app.Valid()
    {
      successCount, failCount, aborted := 0, 0, false;
      if targetUrl == "" || token == "" || defaultPassword == "" {
        return;
      }
      if |app.allUsers| == 0 {
        return;
      }
      var users := Submittable(page);
      if |users| == 0 {
        return;
      }
      var outcomes;
      outcomes, aborted := SubmitUsers(users, replies);
      successCount := Submission.SuccessCount(outcomes);
      failCount := |outcomes| - successCount;
    }

    /** `retryFailedUsers`: without a target URL, a token and a default
        password, or with no retryable row, nothing happens; otherwise the
        retryable rows go through the loop. As in `RegisterUsers`, the counts
        are those of the completion message when `aborted` is false; a thrown
        reply shows an error instead. */
    method RetryFailedUsers(targetUrl: string, token: string, defaultPassword: string, replies: seq<Reply>)
      returns (successCount: nat, failCount: nat, aborted: bool)
      requires app.Valid()
      requires |app.allUsers| <= |replies|
      modifies app
      ensures var users := FailedUsers(old(app.allUsers));
        if targetUrl == "" || token == "" || defaultPassword == "" || users == [] then
          app.allUsers == old(app.allUsers) && successCount == 0 && failCount == 0 && !aborted
        else
          var r := Submit(old(app.allUsers), users, replies, 0);
          app.allUsers == r.rows && aborted == r.aborted &&
          successCount == Submission.SuccessCount(r.outcomes) && successCount + failCount == |r.outcomes|
      ensures app.currentPageNumber == old(app.currentPageNumber)
      ensures app.Valid()
    {
      successCount, failCount, aborted := 0, 0, false;
      if targetUrl == "" || token == "" || defaultPassword == "" {
        return;
      }
      var failedUsers := FailedUsers(app.allUsers);
      if |failedUsers| == 0 {
        return;
      }
      var outcomes;
      outcomes, aborted := SubmitUsers(failedUsers, replies);
      successCount := Submission.SuccessCount(outcomes);
      failCount := |outcomes| - successCount;
    }

    /** `retrySingleUser(userIndex)`: only a retryable row is resent, and only
        with a target URL, a token and a default password; it ends 'success'
        or 'error' with the reply's message, and an exception sets 'error'
        and leaves the message. No other row changes. */
    method RetrySingleUser(userIndex: int, targetUrl: string, token: string, defaultPassword: string, reply: Reply)
      requires app.Valid()
      modifies app
      ensures var rows := old(app.allUsers);
        if targetUrl == "" || token == "" || defaultPassword == "" || !(0 <= userIndex < |rows|) || !Retryable(rows[userIndex]) then
          app.allUsers == rows
        else
          app.allUsers == rows[userIndex := SingleRetry(rows[userIndex], reply)]
      ensures app.currentPageNumber == old(app.currentPageNumber)
      ensures app.Valid()
    {
      if targetUrl == "" || token == "" || defaultPassword == "" {
        return;
      }
      if !(0 <= userIndex < |app.allUsers|) || app.allUsers[userIndex].result != Failed {
        return;
      }
      var user := app.allUsers[userIndex];
      if user.email == "" || user.loginId == "" || user.name == "" {
        return;
      }
      app.allUsers := app.allUsers[userIndex := user.(result := Processing)];
      match reply {
        case Answered(ok, msg) =>
          app.allUsers := app.allUsers[userIndex := app.allUsers[userIndex].(result := if ok then Succeeded else Failed, message := msg)];
        case Threw =>
          app.allUsers := app.allUsers[userIndex := app.allUsers[userIndex].(result := Failed)];
      }
    }
  }

  /** The rows with at least one of e-mail, login id and name set, in order
      (`allUsers.filter(user => user.email || user.loginId || user.name)`). */
  function FilledRows(rows: seq<UserRow>): (r: seq<UserRow>)
    ensures |r| <= |rows|
    ensures forall x :: x in r <==> x in rows && !IsBlankRow(x)
  {
    if rows == [] then []
    else (if IsBlankRow(rows[0]) then [] else [rows[0]]) + FilledRows(rows[1..])
  }

  predicate IsBlankRow(r: UserRow) {
    r.email == "" && r.loginId == "" && r.name == ""
  }

  function Blanks(n: nat): (r: seq<UserRow>)
    ensures |r| == n
  {
    seq(n, _ => BlankRow)
  }

  lemma {:induction false} FilledRowsAppend(a: seq<UserRow>, b: seq<UserRow>)
    ensures FilledRows(a + b) == FilledRows(a) + FilledRows(b)
    decreases |a|
  {
    if a == [] {
      assert a + b == b;
    } else {
      assert (a + b)[1..] == a[1..] + b;
      FilledRowsAppend(a[1..], b);
    }
  }

  lemma {:induction false} FilledRowsOfBlanks(n: nat)
    ensures FilledRows(Blanks(n)) == []
    decreases n
  {
    if n > 0 {
      assert Blanks(n)[1..] == Blanks(n - 1);
      FilledRowsOfBlanks(n - 1);
    }
  }

  lemma {:induction false} FilledRowsIdempotent(rows: seq<UserRow>)
    ensures FilledRows(FilledRows(rows)) == FilledRows(rows)
    decreases |rows|
  {
    if rows != [] {
      var h := if IsBlankRow(rows[0]) then [] else [rows[0]];
      FilledRowsAppend(h, FilledRows(rows[1..]));
      FilledRowsIdempotent(rows[1..]);
      if !IsBlankRow(rows[0]) {
        assert [rows[0]][1..] == [];
      }
    }
  }

  /** Adding blank rows never loses a filled row: the filled rows after
      `addMultipleRows` are the filled rows before, in order, and the rows
      after them are all blank. */
  lemma AddMultipleKeepsFilled(rows: seq<UserRow>, count: nat)
    ensures FilledRows(FilledRows(rows) + Blanks(count)) == FilledRows(rows)
    ensures forall k :: |FilledRows(rows)| <= k < |FilledRows(rows) + Blanks(count)| ==> IsBlankRow((FilledRows(rows) + Blanks(count))[k])
  {
    FilledRowsAppend(FilledRows(rows), Blanks(count));
    FilledRowsOfBlanks(count);
    FilledRowsIdempotent(rows);
    assert FilledRows(rows) + [] == FilledRows(rows);
  }

  /** The state `retrySingleUser` leaves a row in. */
  function SingleRetry(row: UserRow, reply: Reply): (r: UserRow)
    ensures r.email == row.email && r.loginId == row.loginId && r.name == row.name
    ensures r.result == Succeeded <==> reply.Answered? && reply.success
    ensures reply.Answered? ==> r.message == reply.message
    ensures reply.Threw? ==> r.result == Failed && r.message == row.message
  {
    match reply
    case Answered(ok, msg) => row.(result := if ok then Succeeded else Failed, message := msg)
    case Threw => row.(result := Failed)
  }
}
