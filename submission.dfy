/** The submission loop the server and database pages share
    (frontend/js/serverManager.js, frontend/js/databaseManager.js): each
    entry of a list is looked up in the page's table by a key, marked
    'processing', sent to the proxy, and settled by the reply. Each item has
    its own exception handler, so no reply ends the loop early. The replies
    are supplied as a sequence, one per entry. */
module Submission {
  import opened Text
  import opened Dashboard

  /** The body of a reply as the page reads it. */
  datatype Body =
    | Json(message: string, error: string)  // a JSON object; "" for a field it lacks
    | Empty(parseError: string)             // no text; `parseError` is what `response.json()` throws on it
    | Unparsable(parseError: string)        // text that is not JSON, and what parsing it throws

  /** What one POST to the proxy gave the page: a response, or the exception
      `fetch` threw. */
  datatype Reply = Response(ok: bool, status: nat, statusText: string, body: Body) | Threw(message: string)

  const UnknownError: string := "알 수 없는 오류"

  /** The new `result` and `resultMessage` of an entry after a reply in the
      upload loops: the body's text is parsed (an empty one as `{}`, one
      that is not JSON as `{message: '응답 파싱 실패'}`), the result is
      'success' exactly when the response is ok, and the message is the
      body's `message`, else its `error`, else '성공' or the HTTP status
      line. */
  function UploadSettle(reply: Reply): (Outcome, string) {
    match reply
    case Threw(m) => (Failed, if m != "" then m else UnknownError)
    case Response(ok, status, statusText, body) =>
      var message := if body.Json? then body.message else if body.Unparsable? then "응답 파싱 실패" else "";
      var error := if body.Json? then body.error else "";
      (if ok then Succeeded else Failed,
       if message != "" then message
       else if error != "" then error
       else if ok then "성공"
       else "HTTP " + NatToString(status) + ": " + statusText)
  }

  /** The same in the retry methods: `response.json()` throws on a body that
      is not JSON, the handler sets 'error' with the exception's message,
      and the message of a JSON body is its `message`, else '성공' or '실패';
      its `error` is not read. */
  function RetrySettle(reply: Reply): (Outcome, string) {
    match reply
    case Threw(m) => (Failed, if m != "" then m else UnknownError)
    case Response(ok, _, _, body) =>
      if body.Json? then
        (if ok then Succeeded else Failed, if body.message != "" then body.message else if ok then "성공" else "실패")
      else
        (Failed, if body.parseError != "" then body.parseError else UnknownError)
  }

  /** On upload an entry succeeds exactly when the response is ok; an
      exception or a failed response sets 'error'; the message column is
      never left empty, and a message in the body always wins, then its
      error. */
  lemma UploadSettleCases(reply: Reply)
    ensures UploadSettle(reply).0 == Succeeded <==> reply.Response? && reply.ok
    ensures UploadSettle(reply).0 == Failed <==> !(reply.Response? && reply.ok)
    ensures UploadSettle(reply).1 != ""
    ensures reply.Response? && reply.body.Json? && reply.body.message != "" ==> UploadSettle(reply).1 == reply.body.message
    ensures reply.Response? && reply.body.Json? && reply.body.message == "" && reply.body.error != "" ==>
      UploadSettle(reply).1 == reply.body.error
  {
  }

  /** On retry an entry succeeds exactly when the response is ok and its
      body is JSON; the message column is never left empty. */
  lemma RetrySettleCases(reply: Reply)
    ensures RetrySettle(reply).0 == Succeeded <==> reply.Response? && reply.ok && reply.body.Json?
    ensures RetrySettle(reply).0 == Failed <==> !(reply.Response? && reply.ok && reply.body.Json?)
    ensures RetrySettle(reply).1 != ""
  {
  }

  /** The two readings agree on an exception and on a JSON body without
      `error` whose message is set or whose response is ok. */
  lemma SettlesAgreeOnJson(reply: Reply)
    requires reply.Threw? || (reply.body.Json? && reply.body.error == "" && (reply.body.message != "" || reply.ok))
    ensures UploadSettle(reply) == RetrySettle(reply)
  {
  }

  /** Which loop a run is. */
  datatype Mode = Upload | Retry

  function Settle(mode: Mode, reply: Reply): (Outcome, string) {
    if mode == Upload then UploadSettle(reply) else RetrySettle(reply)
  }

  /** `rows.findIndex(r => key(r) === k)`: the first entry with key `k`, or -1. */
  function Find<T, K(==)>(rows: seq<T>, k: K, key: T -> K): (j: int)
    ensures -1 <= j < |rows|
    ensures j >= 0 ==> key(rows[j]) == k && forall i :: 0 <= i < j ==> key(rows[i]) != k
    ensures j == -1 ==> forall i :: 0 <= i < |rows| ==> key(rows[i]) != k
  {
    if rows == [] then -1
    else if key(rows[0]) == k then 0
    else var j := Find(rows[1..], k, key); if j == -1 then -1 else j + 1
  }

  /** No two entries share a key. */
  predicate DistinctKeys<T, K(==)>(rows: seq<T>, key: T -> K) {
    forall i, j :: 0 <= i < j < |rows| ==> key(rows[i]) != key(rows[j])
  }

  /** Keyed entries are found at their own place. */
  lemma FoundAt<T(!new), K>(rows: seq<T>, x: T, key: T -> K)
    requires DistinctKeys(rows, key) && x in rows
    ensures 0 <= Find(rows, key(x), key) < |rows| && rows[Find(rows, key(x), key)] == x
  {
    var k :| 0 <= k < |rows| && rows[k] == x;
    var j := Find(rows, key(x), key);
    assert key(rows[k]) == key(x);
  }

  lemma {:induction false} FilterDistinct<T(!new), K>(rows: seq<T>, keep: T -> bool, key: T -> K)
    requires DistinctKeys(rows, key)
    ensures DistinctKeys(Filter(rows, keep), key)
    decreases |rows|
  {
    if rows != [] {
      var rest := Filter(rows[1..], keep);
      FilterDistinct(rows[1..], keep, key);
      if keep(rows[0]) {
        var q := [rows[0]] + rest;
        forall i, j | 0 <= i < j < |q| ensures key(q[i]) != key(q[j]) {
          if i == 0 {
            assert q[j] in rows[1..];
          } else {
            assert q[i] == rest[i - 1] && q[j] == rest[j - 1];
          }
        }
      }
    }
  }

  /** `rows.filter(keep)`. */
  function Filter<T(!new)>(rows: seq<T>, keep: T -> bool): (r: seq<T>)
    ensures |r| <= |rows|
    ensures forall x :: x in r <==> x in rows && keep(x)
  {
    if rows == [] then [] else (if keep(rows[0]) then [rows[0]] else []) + Filter(rows[1..], keep)
  }

  lemma {:induction false} FilterAll<T(!new)>(rows: seq<T>, keep: T -> bool)
    requires forall j :: 0 <= j < |rows| ==> keep(rows[j])
    ensures Filter(rows, keep) == rows
    decreases |rows|
  {
    if rows != [] {
      FilterAll(rows[1..], keep);
    }
  }

  /** `mark` only sets the result and message columns: it leaves the key. */
  ghost predicate KeepsKey<T(!new), K>(key: T -> K, mark: (T, Outcome, string) -> T) {
    forall t, o, m :: key(mark(t, o, m)) == key(t)
  }

  /** A later `mark` replaces an earlier one: only the last settling of an
      entry shows. */
  ghost predicate Overwrites<T(!new)>(mark: (T, Outcome, string) -> T) {
    forall t, o, m, o2, m2 :: mark(mark(t, o, m), o2, m2) == mark(t, o2, m2)
  }

  /** Two tables whose entries have the same keys, place by place. */
  predicate SameKeys<T, K(==)>(a: seq<T>, b: seq<T>, key: T -> K) {
    |a| == |b| && forall k :: 0 <= k < |a| ==> key(a[k]) == key(b[k])
  }

  lemma FindSameKeys<T(!new), K>(a: seq<T>, b: seq<T>, k: K, key: T -> K)
    requires SameKeys(a, b, key)
    ensures Find(a, k, key) == Find(b, k, key)
  {
    var x := Find(a, k, key);
    var y := Find(b, k, key);
    if x >= 0 {
      assert key(b[x]) == k;
    }
    if y >= 0 {
      assert key(a[y]) == k;
    }
  }

  /** The state after a loop: the table, and for each entry found whether it
      ended 'success'. */
  datatype Run<T> = Run(rows: seq<T>, outcomes: seq<bool>)

  /** Settling the entry at `idx` with a reply. */
  function SettleAt<T>(rows: seq<T>, idx: nat, mark: (T, Outcome, string) -> T, mode: Mode, reply: Reply): seq<T>
    requires idx < |rows|
  {
    var s := Settle(mode, reply);
    rows[idx := mark(rows[idx], s.0, s.1)]
  }

  /** The loop from entry `i` on: an entry not in the table is skipped; a
      found one is marked 'processing' and then settled by its reply. */
  function Submit<T, K(==)>(rows: seq<T>, items: seq<T>, replies: seq<Reply>, mode: Mode,
                            key: T -> K, mark: (T, Outcome, string) -> T, i: nat): Run<T>
    requires i <= |items| <= |replies|
    decreases |items| - i
  {
    if i == |items| then Run(rows, [])
    else
      var idx := Find(rows, key(items[i]), key);
      if idx < 0 then Submit(rows, items, replies, mode, key, mark, i + 1)
      else
        var next := Submit(SettleAt(rows, idx, mark, mode, replies[i]), items, replies, mode, key, mark, i + 1);
        Run(next.rows, [Settle(mode, replies[i]).0 == Succeeded] + next.outcomes)
  }

  /** One step of the loop over an entry found at `idx`. */
  lemma SubmitFoundStep<T, K>(rows: seq<T>, items: seq<T>, replies: seq<Reply>, mode: Mode,
                              key: T -> K, mark: (T, Outcome, string) -> T, i: nat, idx: nat)
    requires i < |items| <= |replies| && idx < |rows| && Find(rows, key(items[i]), key) == idx
    ensures var next := Submit(SettleAt(rows, idx, mark, mode, replies[i]), items, replies, mode, key, mark, i + 1);
      Submit(rows, items, replies, mode, key, mark, i) == Run(next.rows, [Settle(mode, replies[i]).0 == Succeeded] + next.outcomes)
  {
  }

  /** One step of the loop over an entry the table does not hold. */
  lemma SubmitSkipStep<T, K>(rows: seq<T>, items: seq<T>, replies: seq<Reply>, mode: Mode,
                             key: T -> K, mark: (T, Outcome, string) -> T, i: nat)
    requires i < |items| <= |replies| && Find(rows, key(items[i]), key) == -1
    ensures Submit(rows, items, replies, mode, key, mark, i) == Submit(rows, items, replies, mode, key, mark, i + 1)
  {
  }

  /** The loop changes no length, and no column `mark` leaves alone. */
  lemma {:induction false} SubmitKeeps<T(!new), K, P>(rows: seq<T>, items: seq<T>, replies: seq<Reply>, mode: Mode,
                                                     key: T -> K, mark: (T, Outcome, string) -> T, column: T -> P, i: nat)
    requires i <= |items| <= |replies| && KeepsKey(column, mark)
    ensures SameKeys(rows, Submit(rows, items, replies, mode, key, mark, i).rows, column)
    decreases |items| - i
  {
    if i < |items| {
      var idx := Find(rows, key(items[i]), key);
      if idx < 0 {
        SubmitKeeps(rows, items, replies, mode, key, mark, column, i + 1);
      } else {
        var rows1 := SettleAt(rows, idx, mark, mode, replies[i]);
        SubmitKeeps(rows1, items, replies, mode, key, mark, column, i + 1);
      }
    }
  }

  /** The loop changes no key and no length. */
  lemma SubmitKeepsKeys<T(!new), K>(rows: seq<T>, items: seq<T>, replies: seq<Reply>, mode: Mode,
                                    key: T -> K, mark: (T, Outcome, string) -> T, i: nat)
    requires i <= |items| <= |replies| && KeepsKey(key, mark)
    ensures SameKeys(rows, Submit(rows, items, replies, mode, key, mark, i).rows, key)
  {
    SubmitKeeps(rows, items, replies, mode, key, mark, key, i);
  }

  /** An entry no remaining submission is found at is left as it was. */
  lemma {:induction false} SubmitFrame<T(!new), K>(rows: seq<T>, items: seq<T>, replies: seq<Reply>, mode: Mode,
                                                 key: T -> K, mark: (T, Outcome, string) -> T, i: nat, k: int)
    requires i <= |items| <= |replies| && 0 <= k < |rows| && KeepsKey(key, mark)
    requires forall j :: i <= j < |items| ==> Find(rows, key(items[j]), key) != k
    ensures |Submit(rows, items, replies, mode, key, mark, i).rows| == |rows|
    ensures Submit(rows, items, replies, mode, key, mark, i).rows[k] == rows[k]
    decreases |items| - i
  {
    SubmitKeepsKeys(rows, items, replies, mode, key, mark, i);
    if i < |items| {
      var idx := Find(rows, key(items[i]), key);
      if idx < 0 {
        SubmitFrame(rows, items, replies, mode, key, mark, i + 1, k);
      } else {
        var rows1 := SettleAt(rows, idx, mark, mode, replies[i]);
        assert SameKeys(rows, rows1, key);
        forall j | i + 1 <= j < |items| ensures Find(rows1, key(items[j]), key) != k {
          FindSameKeys(rows, rows1, key(items[j]), key);
        }
        SubmitFrame(rows1, items, replies, mode, key, mark, i + 1, k);
      }
    }
  }

  /** The entry a submission is last found at ends settled by that
      submission's reply. */
  lemma {:induction false} LastReplyDecides<T(!new), K>(rows: seq<T>, items: seq<T>, replies: seq<Reply>, mode: Mode,
                                                      key: T -> K, mark: (T, Outcome, string) -> T, i: nat, j: nat)
    requires i <= j < |items| <= |replies| && KeepsKey(key, mark) && Overwrites(mark)
    requires Find(rows, key(items[j]), key) >= 0
    requires forall m :: j < m < |items| ==> Find(rows, key(items[m]), key) != Find(rows, key(items[j]), key)
    ensures var r := Submit(rows, items, replies, mode, key, mark, i); var k := Find(rows, key(items[j]), key);
      |r.rows| == |rows| && r.rows[k] == SettleAt(rows, k, mark, mode, replies[j])[k]
    decreases j - i
  {
    var idx := Find(rows, key(items[i]), key);
    var k := Find(rows, key(items[j]), key);
    SubmitKeepsKeys(rows, items, replies, mode, key, mark, i);
    if idx < 0 {
      LastReplyDecides(rows, items, replies, mode, key, mark, i + 1, j);
    } else {
      var rows1 := SettleAt(rows, idx, mark, mode, replies[i]);
      assert SameKeys(rows, rows1, key);
      FindSameKeys(rows, rows1, key(items[j]), key);
      forall m | j < m < |items| ensures Find(rows1, key(items[m]), key) != k {
        FindSameKeys(rows, rows1, key(items[m]), key);
      }
      assert Submit(rows, items, replies, mode, key, mark, i).rows == Submit(rows1, items, replies, mode, key, mark, i + 1).rows;
      if i == j {
        SubmitFrame(rows1, items, replies, mode, key, mark, i + 1, k);
      } else {
        LastReplyDecides(rows1, items, replies, mode, key, mark, i + 1, j);
      }
    }
  }

  /** The entries from `i` on that are in the table. */
  function Found<T, K(==)>(rows: seq<T>, items: seq<T>, key: T -> K, i: nat): nat
    requires i <= |items|
    decreases |items| - i
  {
    if i == |items| then 0 else (if Find(rows, key(items[i]), key) >= 0 then 1 else 0) + Found(rows, items, key, i + 1)
  }

  lemma {:induction false} FoundSame<T(!new), K>(a: seq<T>, b: seq<T>, items: seq<T>, key: T -> K, i: nat)
    requires i <= |items| && SameKeys(a, b, key)
    ensures Found(a, items, key, i) == Found(b, items, key, i)
    decreases |items| - i
  {
    if i < |items| {
      FindSameKeys(a, b, key(items[i]), key);
      FoundSame(a, b, items, key, i + 1);
    }
  }

  /** `results.length`: one result per entry found in the table. */
  lemma {:induction false} OutcomesCount<T(!new), K>(rows: seq<T>, items: seq<T>, replies: seq<Reply>, mode: Mode,
                                                   key: T -> K, mark: (T, Outcome, string) -> T, i: nat)
    requires i <= |items| <= |replies| && KeepsKey(key, mark)
    ensures |Submit(rows, items, replies, mode, key, mark, i).outcomes| == Found(rows, items, key, i)
    decreases |items| - i
  {
    if i < |items| {
      var idx := Find(rows, key(items[i]), key);
      if idx < 0 {
        OutcomesCount(rows, items, replies, mode, key, mark, i + 1);
      } else {
        var rows1 := SettleAt(rows, idx, mark, mode, replies[i]);
        OutcomesCount(rows1, items, replies, mode, key, mark, i + 1);
        assert SameKeys(rows, rows1, key);
        FoundSame(rows, rows1, items, key, i + 1);
      }
    }
  }

  /** Every entry taken from the table is found there. */
  lemma {:induction false} AllFound<T(!new), K>(rows: seq<T>, items: seq<T>, key: T -> K, i: nat)
    requires i <= |items|
    requires forall x :: x in items ==> x in rows
    ensures Found(rows, items, key, i) == |items| - i
    decreases |items| - i
  {
    if i < |items| {
      assert items[i] in rows;
      var k :| 0 <= k < |rows| && rows[k] == items[i];
      assert key(rows[k]) == key(items[i]);
      AllFound(rows, items, key, i + 1);
    }
  }

  /** With distinct keys, sending a list taken from the table settles each
      listed entry with its own reply, leaves every other entry as it was,
      and yields one result per listed entry. */
  lemma SubmitSettlesEach<T(!new), K>(rows: seq<T>, items: seq<T>, replies: seq<Reply>, mode: Mode,
                                    key: T -> K, mark: (T, Outcome, string) -> T)
    requires DistinctKeys(rows, key) && DistinctKeys(items, key) && |items| <= |replies|
    requires KeepsKey(key, mark) && Overwrites(mark)
    requires forall x :: x in items ==> x in rows
    ensures var r := Submit(rows, items, replies, mode, key, mark, 0);
      |r.rows| == |rows| && |r.outcomes| == |items| &&
      (forall j :: 0 <= j < |items| ==> (0 <= Find(rows, key(items[j]), key) < |rows| &&
        r.rows[Find(rows, key(items[j]), key)] == SettleAt(rows, Find(rows, key(items[j]), key), mark, mode, replies[j])[Find(rows, key(items[j]), key)])) &&
      (forall k :: 0 <= k < |rows| && rows[k] !in items ==> r.rows[k] == rows[k])
  {
    var r := Submit(rows, items, replies, mode, key, mark, 0);
    SubmitKeepsKeys(rows, items, replies, mode, key, mark, 0);
    OutcomesCount(rows, items, replies, mode, key, mark, 0);
    AllFound(rows, items, key, 0);
    forall j | 0 <= j < |items|
      ensures 0 <= Find(rows, key(items[j]), key) < |rows| &&
        r.rows[Find(rows, key(items[j]), key)] == SettleAt(rows, Find(rows, key(items[j]), key), mark, mode, replies[j])[Find(rows, key(items[j]), key)]
    {
      FoundAt(rows, items[j], key);
      forall m | j < m < |items| ensures Find(rows, key(items[m]), key) != Find(rows, key(items[j]), key) {
        FoundAt(rows, items[m], key);
      }
      LastReplyDecides(rows, items, replies, mode, key, mark, 0, j);
    }
    forall k | 0 <= k < |rows| && rows[k] !in items
      ensures r.rows[k] == rows[k]
    {
      forall j | 0 <= j < |items| ensures Find(rows, key(items[j]), key) != k {
        FoundAt(rows, items[j], key);
      }
      SubmitFrame(rows, items, replies, mode, key, mark, 0, k);
    }
  }

  /** The outcomes counted `success`. */
  function SuccessCount(outcomes: seq<bool>): (n: nat)
    ensures n <= |outcomes|
  {
    if outcomes == [] then 0 else (if outcomes[0] then 1 else 0) + SuccessCount(outcomes[1..])
  }

  /** Nothing failed exactly when every outcome is a success. */
  lemma {:induction false} AllSucceeded(outcomes: seq<bool>)
    ensures SuccessCount(outcomes) == |outcomes| <==> forall k :: 0 <= k < |outcomes| ==> outcomes[k]
    decreases |outcomes|
  {
    if outcomes != [] {
      var rest := outcomes[1..];
      AllSucceeded(rest);
      if forall k :: 0 <= k < |outcomes| ==> outcomes[k] {
        assert forall k :: 0 <= k < |rest| ==> rest[k] == outcomes[k + 1];
      } else {
        var k :| 0 <= k < |outcomes| && !outcomes[k];
        if k > 0 {
          assert !rest[k - 1];
        }
      }
    }
  }

  /** The message of both bulk user routes: `${successCount}명 성공, ${failCount}명 실패`. */
  function TallyMessage(successCount: nat, failCount: nat): string {
    NatToString(successCount) + "명 성공, " + NatToString(failCount) + "명 실패"
  }

  /** The outcomes `o` already collected, before the rest `r` of the run. */
  function Prepend<T>(o: seq<bool>, r: Run<T>): Run<T> {
    Run(r.rows, o + r.outcomes)
  }

  lemma PrependStep<T>(o: seq<bool>, ok: bool, r: Run<T>)
    ensures Prepend(o, Run(r.rows, [ok] + r.outcomes)) == Prepend(o + [ok], r)
  {
    assert o + ([ok] + r.outcomes) == (o + [ok]) + r.outcomes;
  }

  lemma PrependEnd<T>(o: seq<bool>, rows: seq<T>)
    ensures Prepend(o, Run(rows, [])) == Run(rows, o)
  {
    assert o + [] == o;
  }
}
