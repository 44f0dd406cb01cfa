/** The stand-alone user page (frontend/js/script.js): the global user list
    and current page, the CSV import that appends every parsed user, the row
    and page operations, and the address check `isValidIP`. */
module ScriptUsers {
  import opened Text
  import opened CsvParser
  import opened FrontendCsv
  import opened Pagination

  /** `usersPerPage`. */
  const ScriptUsersPerPage: nat := 50

  /** The row `addUserRow` pushes. */
  const BlankUser: Identity := Identity("", "", "")

  // ---------------------------------------------------------------------------
  // isValidIP: /^(\d{1,3}\.){3}\d{1,3}(:\d{1,5})?$/
  // ---------------------------------------------------------------------------

  predicate DigitGroup(g: string, max: nat) {
    1 <= |g| <= max && AllDigits(g)
  }

  /** `(:\d{1,5})?$`: nothing at all, or a colon and one to five digits that
      end the text. */
  predicate MatchPort(s: string) {
    s == [] || (s[0] == ':' && 1 <= DigitRun(s[1..]) <= 5 && DigitRun(s[1..]) == |s| - 1)
  }

  /** `(\d{1,3}\.){k}\d{1,3}(:\d{1,5})?$` from the start of `s`. Each group of
      digits in the expression must be followed by a dot, a colon or the end,
      so it is always the whole run of digits found there. */
  predicate MatchDotted(s: string, k: nat)
    decreases k
  {
    var n := DigitRun(s);
    1 <= n <= 3 &&
    if k == 0 then MatchPort(s[n..])
    else n < |s| && s[n] == '.' && MatchDotted(s[n + 1..], k - 1)
  }

  /** `isValidIP`. */
  predicate IsValidIP(ip: string) {
    MatchDotted(ip, 3)
  }

  /** The last piece: one to three digits, then either nothing or exactly
      one colon and one to five digits. */
  predicate GroupAndPort(t: string) {
    var ts := SplitOn(t, ':');
    DigitGroup(ts[0], 3) && (|ts| == 1 || (|ts| == 2 && DigitGroup(ts[1], 5)))
  }

  predicate DottedShape(parts: seq<string>, k: nat) {
    |parts| == k + 1 && (forall i :: 0 <= i < k ==> DigitGroup(parts[i], 3)) && GroupAndPort(parts[k])
  }

  /** An independent reading of the expression: cut at the dots, there are
      four pieces, the first three are groups of one to three digits and the
      last is such a group with an optional port. */
  predicate IPShape(ip: string) {
    DottedShape(SplitOn(ip, '.'), 3)
  }

  lemma {:induction false} DigitRunBefore(g: string, rest: string)
    requires AllDigits(g)
    requires rest == [] || !IsDigit(rest[0])
    ensures DigitRun(g + rest) == |g|
    decreases |g|
  {
    if g == [] {
      assert g + rest == rest;
    } else {
      assert (g + rest)[1..] == g[1..] + rest;
      DigitRunBefore(g[1..], rest);
    }
  }

  lemma {:induction false} SplitAtFirst(g: string, rest: string, sep: char)
    requires sep !in g
    ensures SplitOn(g + [sep] + rest, sep) == [g] + SplitOn(rest, sep)
    decreases |g|
  {
    if g == [] {
      assert (g + [sep] + rest)[1..] == rest;
    } else {
      assert (g + [sep] + rest)[1..] == g[1..] + [sep] + rest;
      NotInTail(g, sep);
      SplitAtFirst(g[1..], rest, sep);
      assert [g[0]] + g[1..] == g;
    }
  }

  lemma DigitsFree(g: string, c: char)
    requires AllDigits(g) && !IsDigit(c)
    ensures c !in g
  {
  }

  /** The last group and the port, read both ways. */
  lemma GroupAndPortIff(t: string)
    ensures GroupAndPort(t) <==> 1 <= DigitRun(t) <= 3 && MatchPort(t[DigitRun(t)..])
  {
    var n := DigitRun(t);
    if 1 <= n <= 3 && MatchPort(t[n..]) {
      if n == |t| {
        assert t[..n] == t;
        PortlessGroup(t);
      } else {
        var p := t[n + 1..];
        assert t == t[..n] + [':'] + p;
        assert AllDigits(p) by {
          assert p[..DigitRun(p)] == p;
        }
        GroupWithPort(t[..n], p);
      }
    }
    if GroupAndPort(t) {
      MatchOfGroupAndPort(t);
    }
  }

  lemma PortlessGroup(t: string)
    requires DigitGroup(t, 3)
    ensures GroupAndPort(t)
  {
    DigitsFree(t, ':');
    SplitOfSepFree(t, ':');
  }

  lemma GroupWithPort(g: string, p: string)
    requires DigitGroup(g, 3) && DigitGroup(p, 5)
    ensures GroupAndPort(g + [':'] + p)
  {
    DigitsFree(g, ':');
    DigitsFree(p, ':');
    SplitAtFirst(g, p, ':');
    SplitOfSepFree(p, ':');
  }

  lemma MatchOfGroupAndPort(t: string)
    requires GroupAndPort(t)
    ensures 1 <= DigitRun(t) <= 3 && MatchPort(t[DigitRun(t)..])
  {
    var ts := SplitOn(t, ':');
    SplitThenJoin(t, ':');
    if |ts| == 1 {
      DigitRunOfDigits(t);
    } else {
      assert t == ts[0] + (":" + ts[1]);
      DigitRunBefore(ts[0], ":" + ts[1]);
      var n := DigitRun(t);
      assert n == |ts[0]|;
      assert t[n..] == ":" + ts[1];
      assert t[n..][1..] == ts[1];
      DigitRunOfDigits(ts[1]);
    }
  }

  lemma ShapeCons(parts: seq<string>, k: nat)
    requires k >= 1 && |parts| >= 1
    ensures DottedShape(parts, k) <==> DigitGroup(parts[0], 3) && DottedShape(parts[1..], k - 1)
  {
    if DigitGroup(parts[0], 3) && DottedShape(parts[1..], k - 1) {
      forall i | 0 <= i < k ensures DigitGroup(parts[i], 3) {
        if i > 0 {
          assert parts[i] == parts[1..][i - 1];
        }
      }
    }
  }

  /** A text with no dot in its last piece, as the expression's last part
      requires. */
  lemma PortHasNoDot(t: string)
    requires 1 <= DigitRun(t) <= 3 && MatchPort(t[DigitRun(t)..])
    ensures '.' !in t
  {
    var n := DigitRun(t);
    forall i | 0 <= i < |t| ensures t[i] != '.' {
      if i < n {
        assert t[..n][i] == t[i];
      } else if i > n {
        var p := t[n + 1..];
        assert p[..DigitRun(p)] == p;
        assert t[i] == p[i - n - 1];
      }
    }
  }

  lemma {:induction false} MatchDottedIff(s: string, k: nat)
    ensures MatchDotted(s, k) <==> DottedShape(SplitOn(s, '.'), k)
    decreases k
  {
    var n := DigitRun(s);
    var parts := SplitOn(s, '.');
    if k == 0 {
      GroupAndPortIff(s);
      if MatchDotted(s, 0) {
        PortHasNoDot(s);
        SplitOfSepFree(s, '.');
      }
      if DottedShape(parts, 0) {
        SplitThenJoin(s, '.');
      }
    } else if n < |s| && s[n] == '.' {
      var rest := s[n + 1..];
      assert s == s[..n] + ['.'] + rest;
      DigitsFree(s[..n], '.');
      SplitAtFirst(s[..n], rest, '.');
      MatchDottedIff(rest, k - 1);
      assert parts[1..] == SplitOn(rest, '.');
      ShapeCons(parts, k);
    } else if DottedShape(parts, k) {
      SplitThenJoin(s, '.');
      JoinCons(parts, ".");
      DigitRunBefore(parts[0], "." + JoinWith(parts[1..], "."));
      assert false;
    }
  }

  /** `isValidIP` agrees with the reading by pieces on every text. */
  lemma IsValidIPIff(ip: string)
    ensures IsValidIP(ip) <==> IPShape(ip)
  {
    MatchDottedIff(ip, 3);
  }

  /** There is no check that a group is at most 255: any four groups of one
      to three digits pass, `999.999.999.999` among them. */
  lemma NoRangeCheck(a: string, b: string, c: string, d: string)
    requires DigitGroup(a, 3) && DigitGroup(b, 3) && DigitGroup(c, 3) && DigitGroup(d, 3)
    ensures IsValidIP(a + "." + b + "." + c + "." + d)
  {
    var parts := [a, b, c, d];
    assert a + "." + b + "." + c + "." + d == JoinWith(parts, ".") by {
      JoinCons(parts, ".");
      assert parts[1..] == [b, c, d];
      JoinCons([b, c, d], ".");
      assert [b, c, d][1..] == [c, d];
      JoinCons([c, d], ".");
    }
    DigitsFree(a, '.');
    DigitsFree(b, '.');
    DigitsFree(c, '.');
    DigitsFree(d, '.');
    JoinThenSplit(parts, '.');
    DigitsFree(d, ':');
    SplitOfSepFree(d, ':');
    IsValidIPIff(a + "." + b + "." + c + "." + d);
  }

  // ---------------------------------------------------------------------------
  // Array.prototype.splice(index, 1)
  // ---------------------------------------------------------------------------

  /** `s.splice(index, 1)`, the array left afterwards; the start is read
      like an index of `slice`. */
  function SpliceOne<T>(s: seq<T>, index: int): (r: seq<T>)
    ensures 0 <= index < |s| ==> r == s[..index] + s[index + 1..]
    ensures -|s| <= index < 0 ==> r == s[..|s| + index] + s[|s| + index + 1..]
    ensures index < -|s| && s != [] ==> r == s[1..]
    ensures index >= |s| ==> r == s
  {
    var start := SliceIndex(index, |s|);
    if start < |s| then s[..start] + s[start + 1..] else s
  }

  /** One element goes exactly when the array is not empty and the index is
      below its length; the others stay, in order. */
  lemma SpliceOneRemoves<T>(s: seq<T>, index: int)
    ensures var r := SpliceOne(s, index);
      (|r| == |s| - 1 <==> s != [] && index < |s|) &&
      (|r| == |s| <==> s == [] || index >= |s|) &&
      exists j :: 0 <= j <= |s| && r == s[..j] + s[(if j < |s| then j + 1 else j)..]
  {
    var j := SliceIndex(index, |s|);
    assert SpliceOne(s, index) == s[..j] + s[(if j < |s| then j + 1 else j)..];
  }

  // ---------------------------------------------------------------------------
  // The page's state
  // ---------------------------------------------------------------------------

  /** The globals `allUsers` and `currentPageNumber`. */
  class UserPage {
    var allUsers: seq<Identity>
    var currentPageNumber: int

    /** The state once the page has loaded: one blank row on page 1. */
    constructor()
      ensures allUsers == [BlankUser] && currentPageNumber == 1
      ensures Valid()
    {
      allUsers := [BlankUser];
      currentPageNumber := 1;
    }

    /** `Math.ceil(allUsers.length / usersPerPage)`. */
    function TotalPages(): nat
      reads this
    {
      CeilDiv(|allUsers|, ScriptUsersPerPage)
    }

    /** The current page is a page of the table, or page 1 of an empty one. */
    predicate Valid()
      reads this
    {
      1 <= currentPageNumber && (currentPageNumber <= TotalPages() || currentPageNumber == 1)
    }

    /** The rows `updateUserTable` shows: those from `(cur - 1) * 50` up to
        `cur * 50`, fewer on the last page. */
    function CurrentPageUsers(): (r: seq<Identity>)
      reads this
      requires Valid()
      ensures var lo := (currentPageNumber - 1) * ScriptUsersPerPage;
        |r| <= ScriptUsersPerPage &&
        (lo < |allUsers| ==> r == allUsers[lo..if lo + ScriptUsersPerPage < |allUsers| then lo + ScriptUsersPerPage else |allUsers|]) &&
        (r == [] <==> currentPageNumber > TotalPages())
    {
      PageRowsSpan(allUsers, currentPageNumber, ScriptUsersPerPage);
      PageRows(allUsers, currentPageNumber, ScriptUsersPerPage)
    }

    /** The page-number links: at most five, around the current page. */
    function PageNumbers(): (w: Window)
      reads this
      ensures Width(w) <= 5
      ensures 1 <= currentPageNumber <= TotalPages() ==> w.first <= currentPageNumber <= w.last
    {
      ScriptWindowBounds(currentPageNumber, TotalPages());
      ScriptWindow(currentPageNumber, TotalPages())
    }

    /** `importCSVFile`: a leading byte-order mark removed, the browser
        reader; with no user nothing changes; otherwise every parsed user is
        appended, known e-mails included, and the view returns to page 1. */
    method ImportCSVFile(csv: string)
      requires Valid()
      modifies this
      ensures var users := BrowserParsedUsers(StripBom(csv));
        if users == [] then allUsers == old(allUsers) && currentPageNumber == old(currentPageNumber)
        else allUsers == old(allUsers) + users && currentPageNumber == 1
      ensures Valid()
    {
      var users := ParseCSVData(StripBom(csv));
      if |users| == 0 {
        return;
      }
      allUsers := allUsers + users;
      currentPageNumber := 1;
    }

    /** `addUserRow`: one blank row at the end; the view moves to the last
        page only when that page lies beyond the current one. */
    method AddUserRow()
      requires Valid()
      modifies this
      ensures allUsers == old(allUsers) + [BlankUser]
      ensures currentPageNumber == if TotalPages() > old(currentPageNumber) then TotalPages() else old(currentPageNumber)
      ensures Valid()
    {
      allUsers := allUsers + [BlankUser];
      CeilDivMono(|allUsers| - 1, |allUsers|, ScriptUsersPerPage);
      var totalPages := CeilDiv(|allUsers|, ScriptUsersPerPage);
      if totalPages > currentPageNumber {
        currentPageNumber := totalPages;
      }
    }

    /** `removeUserRow(index)`: refused while at most one row is left;
        otherwise `splice(index, 1)` and the current page is clamped to the
        page count. */
    method RemoveUserRow(index: int)
      requires Valid()
      modifies this
      ensures |old(allUsers)| <= 1 ==> allUsers == old(allUsers) && currentPageNumber == old(currentPageNumber)
      ensures |old(allUsers)| > 1 ==>
        allUsers == SpliceOne(old(allUsers), index) &&
        currentPageNumber == (if old(currentPageNumber) > TotalPages() then TotalPages() else old(currentPageNumber))
      ensures Valid()
    {
      if |allUsers| <= 1 {
        return;
      }
      allUsers := SpliceOne(allUsers, index);
      var totalPages := CeilDiv(|allUsers|, ScriptUsersPerPage);
      if currentPageNumber > totalPages {
        currentPageNumber := totalPages;
      }
    }

    /** `changePage(direction)`: moves only onto a page of the table. */
    method ChangePage(direction: int)
      requires Valid()
      modifies this
      ensures allUsers == old(allUsers)
      ensures currentPageNumber == PageAfter(old(currentPageNumber), TotalPages(), old(currentPageNumber) + direction)
      ensures Valid()
    {
      var totalPages := CeilDiv(|allUsers|, ScriptUsersPerPage);
      var newPage := currentPageNumber + direction;
      if newPage >= 1 && newPage <= totalPages {
        currentPageNumber := newPage;
      }
    }

    /** `goToPage(page)`: moves only onto a page of the table. */
    method GoToPage(page: int)
      requires Valid()
      modifies this
      ensures allUsers == old(allUsers)
      ensures currentPageNumber == PageAfter(old(currentPageNumber), TotalPages(), page)
      ensures Valid()
    {
      var totalPages := CeilDiv(|allUsers|, ScriptUsersPerPage);
      if page >= 1 && page <= totalPages {
        currentPageNumber := page;
      }
    }

    /** `clearUserTable`: once confirmed, the list is emptied and the view
        returns to page 1. */
    method ClearUserTable(confirmed: bool)
      requires Valid()
      modifies this
      ensures confirmed ==> allUsers == [] && currentPageNumber == 1
      ensures !confirmed ==> allUsers == old(allUsers) && currentPageNumber == old(currentPageNumber)
      ensures Valid()
    {
      if confirmed {
        allUsers := [];
        currentPageNumber := 1;
      }
    }
  }
}
