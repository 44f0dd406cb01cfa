/** Paging of the batch tables: the page count, the run of page numbers shown
    around the current page, the slice of rows a page shows, and the rule that
    moves the current page (frontend/js/userManager.js and frontend/js/script.js
    share the rules and differ in the window width). */
module Pagination {
  import opened Text

  /** The page numbers listed around the current page, `first..last`. */
  datatype Window = Window(first: int, last: int)

  /** `startPage = Math.max(1, cur - back)`, `endPage = Math.min(total, startPage + span)`. */
  function PageWindow(cur: int, total: int, back: nat, span: nat): Window {
    var first := if cur - back > 1 then cur - back else 1;
    Window(first, if total < first + span then total else first + span)
  }

  /** userManager.js: up to 7 numbers, three before the current page. */
  function ManagerWindow(cur: int, total: int): Window {
    PageWindow(cur, total, 3, 6)
  }

  /** script.js: up to 5 numbers, two before the current page. */
  function ScriptWindow(cur: int, total: int): Window {
    PageWindow(cur, total, 2, 4)
  }

  /** The number of page numbers a window lists. */
  function Width(w: Window): nat {
    if w.last < w.first then 0 else w.last - w.first + 1
  }

  /** Every listed number is a real page, at most `span + 1` are listed, and
      a current page within range is among them. */
  lemma WindowBounds(cur: int, total: int, back: nat, span: nat)
    requires back <= span
    ensures var w := PageWindow(cur, total, back, span);
      1 <= w.first && w.last <= total && Width(w) <= span + 1 &&
      (1 <= cur <= total ==> w.first <= cur <= w.last)
  {
  }

  lemma ManagerWindowBounds(cur: int, total: int)
    ensures var w := ManagerWindow(cur, total);
      1 <= w.first && w.last <= total && Width(w) <= 7 &&
      (1 <= cur <= total ==> w.first <= cur <= w.last)
  {
    WindowBounds(cur, total, 3, 6);
  }

  lemma ScriptWindowBounds(cur: int, total: int)
    ensures var w := ScriptWindow(cur, total);
      1 <= w.first && w.last <= total && Width(w) <= 5 &&
      (1 <= cur <= total ==> w.first <= cur <= w.last)
  {
    WindowBounds(cur, total, 2, 4);
  }

  /** The window is anchored three pages before the current one, so near the
      last page it lists fewer than 7 numbers. */
  lemma ManagerWindowShrinksAtEnd()
    ensures ManagerWindow(10, 10) == Window(7, 10) && Width(ManagerWindow(10, 10)) == 4
  {
  }

  /** One entry of the page-number bar: a clickable page, or the "..." filler. */
  datatype Link = PageLink(page: int, active: bool) | Gap

  /** The numbers of a window, the current one marked active. */
  function WindowLinks(w: Window, cur: int): (r: seq<Link>)
    ensures |r| == Width(w)
  {
    seq(Width(w), k => PageLink(w.first + k, w.first + k == cur))
  }

  /** Page 1 and a gap when the window starts after page 1 (after page 2 for the gap). */
  function HeadLinks(w: Window): seq<Link> {
    if w.first > 1 then [PageLink(1, false)] + (if w.first > 2 then [Gap] else []) else []
  }

  /** A gap and the last page when the window ends before the last page. */
  function TailLinks(w: Window, total: int): seq<Link> {
    if w.last < total then (if w.last < total - 1 then [Gap] else []) + [PageLink(total, false)] else []
  }

  /** The bar `updatePagination` of userManager.js builds: page 1 and a gap
      when the window starts later, the window, then a gap and the last page
      when it ends earlier. */
  function ManagerLinks(cur: int, total: int): seq<Link> {
    var w := ManagerWindow(cur, total);
    HeadLinks(w) + WindowLinks(w, cur) + TailLinks(w, total)
  }

  /** The page numbers of a bar, in order, gaps skipped. */
  function Pages(links: seq<Link>): seq<int> {
    if links == [] then []
    else (if links[0].PageLink? then [links[0].page] else []) + Pages(links[1..])
  }

  predicate StrictlyIncreasing(ps: seq<int>) {
    forall i, j :: 0 <= i < j < |ps| ==> ps[i] < ps[j]
  }

  lemma {:induction false} PagesAppend(a: seq<Link>, b: seq<Link>)
    ensures Pages(a + b) == Pages(a) + Pages(b)
    decreases |a|
  {
    if a == [] {
      assert a + b == b;
    } else {
      var head := if a[0].PageLink? then [a[0].page] else [];
      assert (a + b)[0] == a[0];
      assert (a + b)[1..] == a[1..] + b;
      PagesAppend(a[1..], b);
      assert Pages(a + b) == head + (Pages(a[1..]) + Pages(b));
      assert Pages(a) == head + Pages(a[1..]);
    }
  }

  /** The numbers `first, first + 1, ..., first + n - 1`. */
  function Range(first: int, n: nat): (r: seq<int>)
    ensures |r| == n
  {
    seq(n, k => first + k)
  }

  lemma {:induction false} PagesOfWindow(w: Window, cur: int)
    ensures Pages(WindowLinks(w, cur)) == Range(w.first, Width(w))
    decreases Width(w)
  {
    if Width(w) > 0 {
      var w' := Window(w.first + 1, w.last);
      PagesOfWindow(w', cur);
      assert WindowLinks(w, cur)[1..] == WindowLinks(w', cur);
      assert Range(w.first, Width(w)) == [w.first] + Range(w'.first, Width(w'));
    }
  }

  lemma PagesOfHead(w: Window)
    ensures Pages(HeadLinks(w)) == if w.first > 1 then [1] else []
  {
    if w.first > 1 {
      PagesAppend([PageLink(1, false)], if w.first > 2 then [Gap] else []);
    }
  }

  lemma PagesOfTail(w: Window, total: int)
    ensures Pages(TailLinks(w, total)) == if w.last < total then [total] else []
  {
    if w.last < total {
      PagesAppend(if w.last < total - 1 then [Gap] else [], [PageLink(total, false)]);
    }
  }

  lemma ConcatIncreasing(a: seq<int>, b: seq<int>)
    requires StrictlyIncreasing(a) && StrictlyIncreasing(b)
    requires a == [] || b == [] || a[|a| - 1] < b[0]
    ensures StrictlyIncreasing(a + b)
  {
    forall i, j | 0 <= i < j < |a + b| ensures (a + b)[i] < (a + b)[j] {
      if i < |a| && j >= |a| {
        assert (a + b)[i] <= a[|a| - 1];
        assert b[0] <= (a + b)[j];
      }
    }
  }

  /** The numbers the bar of userManager.js lists. */
  lemma ManagerPages(cur: int, total: int)
    ensures var w := ManagerWindow(cur, total);
      Pages(ManagerLinks(cur, total)) ==
        (if w.first > 1 then [1] else []) + Range(w.first, Width(w)) + (if w.last < total then [total] else [])
  {
    var w := ManagerWindow(cur, total);
    PagesAppend(HeadLinks(w) + WindowLinks(w, cur), TailLinks(w, total));
    PagesAppend(HeadLinks(w), WindowLinks(w, cur));
    PagesOfHead(w);
    PagesOfWindow(w, cur);
    PagesOfTail(w, total);
  }

  /** With the current page in range, the bar of userManager.js lists page 1
      first and the last page last, the current page among them, every page
      number once and in increasing order. */
  lemma ManagerLinksShape(cur: int, total: int)
    requires 1 <= cur <= total
    ensures var ps := Pages(ManagerLinks(cur, total));
      |ps| > 0 && ps[0] == 1 && ps[|ps| - 1] == total && cur in ps && StrictlyIncreasing(ps)
  {
    var w := ManagerWindow(cur, total);
    ManagerWindowBounds(cur, total);
    ManagerPages(cur, total);
    BarNumbers(w, cur, total);
  }

  /** The numbers of a bar around a window that holds the current page. */
  lemma BarNumbers(w: Window, cur: int, total: int)
    requires 1 <= w.first <= cur <= w.last <= total
    ensures var ps := (if w.first > 1 then [1] else []) + Range(w.first, Width(w)) + (if w.last < total then [total] else []);
      |ps| > 0 && ps[0] == 1 && ps[|ps| - 1] == total && cur in ps && StrictlyIncreasing(ps)
  {
    var hp: seq<int> := if w.first > 1 then [1] else [];
    var mid := Range(w.first, Width(w));
    var tp: seq<int> := if w.last < total then [total] else [];
    assert mid[cur - w.first] == cur;
    assert (hp + mid + tp)[|hp| + (cur - w.first)] == cur;
    ConcatIncreasing(hp, mid);
    ConcatIncreasing(hp + mid, tp);
  }

  /** No entry of the bar other than the current page is marked active. */
  lemma ManagerLinksActive(cur: int, total: int, k: int)
    requires 0 <= k < |ManagerLinks(cur, total)|
    ensures var l := ManagerLinks(cur, total)[k]; l.PageLink? && l.active ==> l.page == cur
  {
  }

  lemma WindowLinksSnoc(first: int, i: int, cur: int)
    requires first <= i
    ensures WindowLinks(Window(first, i), cur) == WindowLinks(Window(first, i - 1), cur) + [PageLink(i, i == cur)]
  {
  }

  /** The loop of `updatePagination` (userManager.js) that lays out the bar,
      built as its three runs of entries. */
  method BuildManagerLinks(cur: int, total: int) returns (links: seq<Link>)
    ensures links == ManagerLinks(cur, total)
  {
    var w := ManagerWindow(cur, total);
    var head := [];
    if w.first > 1 {
      head := head + [PageLink(1, false)];
      if w.first > 2 {
        head := head + [Gap];
      }
    }
    var mid := [];
    var i := w.first;
    while i <= w.last
      invariant w.first <= i && (i <= w.last + 1 || i == w.first)
      invariant mid == WindowLinks(Window(w.first, i - 1), cur)
    {
      WindowLinksSnoc(w.first, i, cur);
      mid := mid + [PageLink(i, i == cur)];
      i := i + 1;
    }
    assert mid == WindowLinks(w, cur);
    var tail := [];
    if w.last < total {
      if w.last < total - 1 {
        tail := tail + [Gap];
      }
      tail := tail + [PageLink(total, false)];
    }
    assert head == HeadLinks(w) && tail == TailLinks(w, total);
    links := head + mid + tail;
  }

  /** The page a move to `target` lands on: the target when it is a page,
      otherwise the page stays (`changePage` and `goToPage`). */
  function PageAfter(cur: int, total: int, target: int): (r: int)
    ensures r == target || r == cur
    ensures r == target <==> (1 <= target <= total || target == cur)
  {
    if 1 <= target <= total then target else cur
  }

  /** `prevBtn.disabled`. */
  predicate PrevDisabled(cur: int) {
    cur <= 1
  }

  /** `nextBtn.disabled`. */
  predicate NextDisabled(cur: int, total: int) {
    cur >= total
  }

  /** The previous and next buttons are enabled exactly when a move by one
      page in that direction would change the current page. */
  lemma ButtonsMatchMoves(cur: int, total: int)
    requires 1 <= cur && (cur <= total || cur == 1)
    ensures !PrevDisabled(cur) <==> PageAfter(cur, total, cur - 1) != cur
    ensures !NextDisabled(cur, total) <==> PageAfter(cur, total, cur + 1) != cur
  {
  }

  /** A relative index of `Array.prototype.slice`: negative counts from the
      end, and the result is clamped to `0..len`. */
  function SliceIndex(i: int, len: nat): (r: nat)
    ensures r <= len
    ensures 0 <= i <= len ==> r == i
    ensures i > len ==> r == len
  {
    if i < 0 then (if len + i < 0 then 0 else len + i) else if i > len then len else i
  }

  /** `s.slice(start, end)`. */
  function Slice<T>(s: seq<T>, start: int, end: int): (r: seq<T>)
    ensures |r| <= |s|
  {
    var lo := SliceIndex(start, |s|);
    var hi := SliceIndex(end, |s|);
    if lo < hi then s[lo..hi] else []
  }

  /** The rows page `cur` shows: `s.slice((cur - 1) * per, (cur - 1) * per + per)`. */
  function PageRows<T>(s: seq<T>, cur: int, per: nat): seq<T> {
    Slice(s, (cur - 1) * per, (cur - 1) * per + per)
  }

  lemma MulMono(a: int, b: int, per: nat)
    requires a <= b
    ensures a * per <= b * per
  {
  }

  /** Page `cur` starts past the last row exactly when it is past the last page. */
  lemma PageStartPastEnd(count: nat, cur: int, per: nat)
    requires 1 <= cur && per > 0
    ensures (cur - 1) * per >= count <==> cur > CeilDiv(count, per)
  {
    var c := CeilDiv(count, per);
    if cur > c {
      MulMono(c, cur - 1, per);
    } else {
      MulMono(cur - 1, c - 1, per);
    }
  }

  /** A page holds at most `per` rows, and exactly the rows from
      `(cur - 1) * per` on; it is empty exactly when the page is past the
      last one. */
  lemma PageRowsSpan<T>(s: seq<T>, cur: int, per: nat)
    requires 1 <= cur && per > 0
    ensures var lo := (cur - 1) * per;
      |PageRows(s, cur, per)| <= per &&
      (lo < |s| ==> PageRows(s, cur, per) == s[lo..if lo + per < |s| then lo + per else |s|]) &&
      (PageRows(s, cur, per) == [] <==> cur > CeilDiv(|s|, per))
  {
    var lo := (cur - 1) * per;
    MulMono(0, cur - 1, per);
    PageStartPastEnd(|s|, cur, per);
  }

  /** Every row is on page `i / per + 1`, at position `i % per`, and that page
      is one of the `CeilDiv(|s|, per)` pages. */
  lemma RowOnItsPage<T>(s: seq<T>, per: nat, i: nat)
    requires per > 0 && i < |s|
    ensures 1 <= i / per + 1 <= CeilDiv(|s|, per)
    ensures i % per < |PageRows(s, i / per + 1, per)|
    ensures PageRows(s, i / per + 1, per)[i % per] == s[i]
  {
    var cur := i / per + 1;
    assert (cur - 1) * per + i % per == i;
    PageStartPastEnd(|s|, cur, per);
    PageRowsSpan(s, cur, per);
  }
}
