/** The user batch the dashboard keeps in memory (frontend/js/app.js): the
    list of user rows and the current page, shared by the user manager and the
    CSV handler, together with the import merge both of them perform. */
module Dashboard {
  import opened Text
  import opened CsvParser

  /** The `result` column of a row: '', 'processing', 'success' or 'error'. */
  datatype Outcome = NoResult | Processing | Succeeded | Failed

  /** A row of `allUsers`; `message` is `resultMessage`, "" while unset. */
  datatype UserRow = UserRow(email: string, loginId: string, name: string, result: Outcome, message: string)

  /** `usersPerPage`: it only counts the pages; the dashboard's table shows
      every row. */
  const UsersPerPage: nat := 20

  /** A parsed user as the table stores it, with `result: ''`. */
  function RowOf(u: Identity): UserRow {
    UserRow(u.email, u.loginId, u.name, NoResult, "")
  }

  function RowsOf(us: seq<Identity>): (r: seq<UserRow>)
    ensures |r| == |us|
    ensures forall k :: 0 <= k < |us| ==> r[k] == RowOf(us[k])
  {
    seq(|us|, k requires 0 <= k < |us| => RowOf(us[k]))
  }

  /** The row `addUserRow` and `addMultipleRows` push. */
  const BlankRow: UserRow := UserRow("", "", "", NoResult, "")

  /** The e-mails already in the table, empty ones left out
      (`new Set(allUsers.map(u => u.email).filter(Boolean))`). */
  function KnownEmails(rows: seq<UserRow>): set<string> {
    set k | 0 <= k < |rows| && rows[k].email != "" :: rows[k].email
  }

  /** The parsed users whose e-mail is not in `known`, in file order
      (`users.filter(user => !existingEmails.has(user.email))`). */
  function FreshUsers(known: set<string>, users: seq<Identity>): (r: seq<Identity>)
    ensures |r| <= |users|
    ensures forall u :: u in r <==> u in users && u.email !in known
  {
    if users == [] then []
    else (if users[0].email in known then [] else [users[0]]) + FreshUsers(known, users[1..])
  }

  /** The filter keeps file order: it works on a file piece by piece. */
  lemma {:induction false} FreshUsersAppend(known: set<string>, a: seq<Identity>, b: seq<Identity>)
    ensures FreshUsers(known, a + b) == FreshUsers(known, a) + FreshUsers(known, b)
    decreases |a|
  {
    if a == [] {
      assert a + b == b;
    } else {
      assert (a + b)[1..] == a[1..] + b;
      FreshUsersAppend(known, a[1..], b);
    }
  }

  /** The filter only compares against the table, never within the file: a
      file whose e-mails are all new is appended whole, repeated e-mails
      included. */
  lemma {:induction false} FreshUsersAllNew(known: set<string>, users: seq<Identity>)
    requires forall k :: 0 <= k < |users| ==> users[k].email !in known
    ensures FreshUsers(known, users) == users
    decreases |users|
  {
    if users != [] {
      FreshUsersAllNew(known, users[1..]);
    }
  }

  /** `[...allUsers, ...newUsers]`: the table with the parsed users whose
      e-mail it does not hold yet appended. */
  function MergeImport(rows: seq<UserRow>, users: seq<Identity>): seq<UserRow> {
    rows + RowsOf(FreshUsers(KnownEmails(rows), users))
  }

  /** The merge keeps the table as a prefix, appends at most the parsed
      users, appends no user whose e-mail the table already holds, and
      appends every user whose e-mail is new. */
  lemma MergeImportShape(rows: seq<UserRow>, users: seq<Identity>)
    ensures var m := MergeImport(rows, users);
      m[..|rows|] == rows && |rows| <= |m| <= |rows| + |users| &&
      (forall k :: |rows| <= k < |m| ==> m[k].result == NoResult && m[k].email !in KnownEmails(rows)) &&
      (forall u :: u in users && u.email !in KnownEmails(rows) ==> RowOf(u) in m[|rows|..])
  {
    var m := MergeImport(rows, users);
    var added := FreshUsers(KnownEmails(rows), users);
    assert m[|rows|..] == RowsOf(added);
    forall k | |rows| <= k < |m|
      ensures m[k].result == NoResult && m[k].email !in KnownEmails(rows)
    {
      assert m[k] == RowOf(added[k - |rows|]);
      assert added[k - |rows|] in added;
    }
    forall u | u in users && u.email !in KnownEmails(rows)
      ensures RowOf(u) in m[|rows|..]
    {
      var j :| 0 <= j < |added| && added[j] == u;
      assert m[|rows|..][j] == RowOf(u);
    }
  }

  /** The dashboard's state: `allUsers` and `currentPageNumber`. */
  class DashboardApp {
    var allUsers: seq<UserRow>
    var currentPageNumber: int

    constructor()
      ensures allUsers == [] && currentPageNumber == 1
      ensures Valid()
    {
      allUsers := [];
      currentPageNumber := 1;
    }

    /** `Math.ceil(allUsers.length / usersPerPage)`. */
    function TotalPages(): nat
      reads this
    {
      CeilDiv(|allUsers|, UsersPerPage)
    }

    /** The current page is a page of the table, or page 1 of an empty one. */
    predicate Valid()
      reads this
    {
      1 <= currentPageNumber && (currentPageNumber <= TotalPages() || currentPageNumber == 1)
    }
  }
}
