/** The database page (frontend/js/databaseManager.js): the batch of
    connections an import replaces, the connections a submission sends, and
    the loops that move each sent connection from '' or 'error' through
    'processing' to 'success' or 'error', looked up by name, type and user. */
module DatabaseManager {
  import opened Text
  import opened Dashboard
  import opened DatabaseCsv
  import opened Submission

  /** `db.name && db.databaseType && db.userName && db.password && db.clusters && db.clusters.length > 0`. */
  predicate Qualifies(db: DbConnection) {
    db.name != "" && db.databaseType != "" && db.userName != "" && db.password != "" && |db.clusters| > 0
  }

  /** The filter of `retryFailedDatabases` and of the retry button. */
  predicate RetryableDb(db: DbConnection) {
    db.result == Failed && Qualifies(db)
  }

  /** The key a connection is looked up by:
      `d.name === db.name && d.databaseType === db.databaseType && d.userName === db.userName`. */
  function ConnKey(db: DbConnection): Triple {
    ConnTriple(db)
  }

  /** What settling writes: the result and message columns. */
  function MarkConnection(db: DbConnection, result: Outcome, message: string): DbConnection {
    db.(result := result, message := message)
  }

  lemma MarkKeepsKey()
    ensures KeepsKey(ConnKey, MarkConnection) && Overwrites(MarkConnection)
  {
  }

  /** The database page's state: `allDatabases` and `currentPageNumber`. */
  class DatabaseManager {
    var allDatabases: seq<DbConnection>
    var currentPageNumber: int

    constructor()
      ensures allDatabases == [] && currentPageNumber == 1
    {
      allDatabases := [];
      currentPageNumber := 1;
    }

    /** `getCurrentPageDatabases`: the connections with every field set, in
        table order. */
    function CurrentPageDatabases(): (r: seq<DbConnection>)
      reads this
      ensures forall db :: db in r <==> db in allDatabases && Qualifies(db)
    {
      Filter(allDatabases, Qualifies)
    }

    /** `importCSVFile`: a leading byte-order mark removed, the file parsed;
        a file without connections changes nothing, otherwise its
        connections replace the whole batch and the view returns to page 1. */
    method ImportCSVFile(csv: string)
      modifies this
      ensures var dbs := ImportedDatabases(StripBom(csv));
        if dbs == [] then allDatabases == old(allDatabases) && currentPageNumber == old(currentPageNumber)
        else allDatabases == dbs && currentPageNumber == 1
    {
      var databases := ParseCSVData(StripBom(csv));
      if |databases| == 0 {
        return;
      }
      allDatabases := databases;
      currentPageNumber := 1;
    }

    /** The submission loop of `uploadDatabases` and `retryFailedDatabases`. */
    method SubmitDatabases(dbs: seq<DbConnection>, replies: seq<Reply>, mode: Mode) returns (outcomes: seq<bool>)
      requires |dbs| <= |replies|
      modifies this
      ensures var r := Submit(old(allDatabases), dbs, replies, mode, ConnKey, MarkConnection, 0);
        allDatabases == r.rows && outcomes == r.outcomes
      ensures currentPageNumber == old(currentPageNumber)
    {
      outcomes := [];
      var i := 0;
      while i < |dbs|
        invariant 0 <= i <= |dbs|
        invariant currentPageNumber == old(currentPageNumber)
        invariant Submit(old(allDatabases), dbs, replies, mode, ConnKey, MarkConnection, 0) ==
          Prepend(outcomes, Submit(allDatabases, dbs, replies, mode, ConnKey, MarkConnection, i))
      {
        var db := dbs[i];
        var dbIndex := Find(allDatabases, ConnKey(db), ConnKey);
        if dbIndex == -1 {
          SubmitSkipStep(allDatabases, dbs, replies, mode, ConnKey, MarkConnection, i);
          i := i + 1;
          continue;
        }
        var before := allDatabases;
        allDatabases := allDatabases[dbIndex := allDatabases[dbIndex].(result := Processing)];
        var settled := Settle(mode, replies[i]);
        allDatabases := allDatabases[dbIndex := allDatabases[dbIndex].(result := settled.0, message := settled.1)];
        assert allDatabases == SettleAt(before, dbIndex, MarkConnection, mode, replies[i]);
        SubmitFoundStep(before, dbs, replies, mode, ConnKey, MarkConnection, i, dbIndex);
        PrependStep(outcomes, settled.0 == Succeeded, Submit(allDatabases, dbs, replies, mode, ConnKey, MarkConnection, i + 1));
        outcomes := outcomes + [settled.0 == Succeeded];
        i := i + 1;
      }
      PrependEnd(outcomes, allDatabases);
    }

    /** `uploadDatabases`: nothing happens without a target URL and a token
        or when no connection qualifies; otherwise the qualifying connections
        go through the loop. The counts are those of the completion
        message. */
    method UploadDatabases(targetUrl: string, token: string, replies: seq<Reply>)
      returns (successCount: nat, failCount: nat)
      requires |allDatabases| <= |replies|
      modifies this
      ensures var dbs := Filter(old(allDatabases), Qualifies);
        if targetUrl == "" || token == "" || dbs == [] then
          allDatabases == old(allDatabases) && successCount == 0 && failCount == 0
        else
          var r := Submit(old(allDatabases), dbs, replies, Upload, ConnKey, MarkConnection, 0);
          allDatabases == r.rows && successCount == SuccessCount(r.outcomes) && successCount + failCount == |r.outcomes|
      ensures currentPageNumber == old(currentPageNumber)
    {
      successCount, failCount := 0, 0;
      if targetUrl == "" || token == "" {
        return;
      }
      var databases := CurrentPageDatabases();
      if |databases| == 0 {
        return;
      }
      var outcomes := SubmitDatabases(databases, replies, Upload);
      successCount := SuccessCount(outcomes);
      failCount := |outcomes| - successCount;
    }

    /** `retryFailedDatabases`: nothing happens without a target URL and a
        token or when no qualifying connection failed; otherwise those go
        through the loop. */
    method RetryFailedDatabases(targetUrl: string, token: string, replies: seq<Reply>)
      requires |allDatabases| <= |replies|
      modifies this
      ensures var dbs := Filter(old(allDatabases), RetryableDb);
        if targetUrl == "" || token == "" || dbs == [] then allDatabases == old(allDatabases)
        else allDatabases == Submit(old(allDatabases), dbs, replies, Retry, ConnKey, MarkConnection, 0).rows
      ensures currentPageNumber == old(currentPageNumber)
    {
      if targetUrl == "" || token == "" {
        return;
      }
      var failedDatabases := Filter(allDatabases, RetryableDb);
      if |failedDatabases| == 0 {
        return;
      }
      var outcomes := SubmitDatabases(failedDatabases, replies, Retry);
    }

    /** `retrySingleDatabase(dbIndex)`: only a connection whose result is
        'error' is resent, and only with a target URL and a token; its other
        fields are not checked. No other connection changes. */
    method RetrySingleDatabase(dbIndex: int, targetUrl: string, token: string, reply: Reply)
      modifies this
      ensures var rows := old(allDatabases);
        if targetUrl == "" || token == "" || !(0 <= dbIndex < |rows|) || rows[dbIndex].result != Failed then
          allDatabases == rows
        else
          allDatabases == SettleAt(rows, dbIndex, MarkConnection, Retry, reply)
      ensures currentPageNumber == old(currentPageNumber)
    {
      if targetUrl == "" || token == "" {
        return;
      }
      if !(0 <= dbIndex < |allDatabases|) || allDatabases[dbIndex].result != Failed {
        return;
      }
      allDatabases := allDatabases[dbIndex := allDatabases[dbIndex].(result := Processing)];
      var settled := RetrySettle(reply);
      allDatabases := allDatabases[dbIndex := allDatabases[dbIndex].(result := settled.0, message := settled.1)];
    }
  }

  // The imported batch

  lemma {:induction false} FirstWithKeyHasCluster(rows: seq<DbRow>, t: Triple)
    requires FirstWithKey(rows, t, TripleKey).Some?
    ensures ClustersWithKey(rows, t, TripleKey) != []
    decreases |rows|
  {
    var front := rows[..|rows| - 1];
    if FirstWithKey(front, t, TripleKey).Some? {
      FirstWithKeyHasCluster(front, t);
    }
  }

  /** A connection grouped from valid rows has its fields and a cluster. */
  lemma GroupedQualifies(rows: seq<DbRow>, db: DbConnection)
    requires forall k :: 0 <= k < |rows| ==> ValidRow(rows[k])
    requires GroupedAt(rows, db, TripleKey)
    ensures Qualifies(db)
  {
    var t := ConnTriple(db);
    FirstWithKeyIsFirst(rows, t, TripleKey);
    FirstWithKeyHasCluster(rows, t);
  }

  lemma GroupedBatchQualifies(rows: seq<DbRow>)
    requires forall k :: 0 <= k < |rows| ==> ValidRow(rows[k])
    ensures Filter(Group(rows, TripleKey), Qualifies) == Group(rows, TripleKey)
    ensures DistinctKeys(Group(rows, TripleKey), ConnKey)
  {
    var dbs := Group(rows, TripleKey);
    GroupIsGrouped(rows, TripleKey);
    TripleGroupingDistinct(rows);
    forall j | 0 <= j < |dbs| ensures Qualifies(dbs[j]) {
      GroupedQualifies(rows, dbs[j]);
    }
    FilterAll(dbs, Qualifies);
  }

  /** Every imported connection qualifies for submission and no two share
      name, type and user. */
  lemma ImportedQualify(csv: string)
    ensures Filter(ImportedDatabases(csv), Qualifies) == ImportedDatabases(csv)
    ensures DistinctKeys(ImportedDatabases(csv), ConnKey)
  {
    ParsedDbRowsValid(csv);
    GroupedBatchQualifies(ParsedDbRows(csv));
  }

  /** An upload right after an import sends the whole batch: each connection
      ends with its own reply settled, and there is one result per
      connection. */
  lemma UploadAfterImport(csv: string, replies: seq<Reply>)
    requires |ImportedDatabases(csv)| <= |replies|
    ensures var dbs := ImportedDatabases(csv);
      var r := Submit(dbs, Filter(dbs, Qualifies), replies, Upload, ConnKey, MarkConnection, 0);
      |r.outcomes| == |dbs| && |r.rows| == |dbs| &&
      forall j :: 0 <= j < |dbs| ==>
        r.rows[j] == MarkConnection(dbs[j], UploadSettle(replies[j]).0, UploadSettle(replies[j]).1)
  {
    var dbs := ImportedDatabases(csv);
    ImportedQualify(csv);
    MarkKeepsKey();
    SubmitSettlesEach(dbs, dbs, replies, Upload, ConnKey, MarkConnection);
    forall j | 0 <= j < |dbs| ensures Find(dbs, ConnKey(dbs[j]), ConnKey) == j {
      FoundAt(dbs, dbs[j], ConnKey);
      assert dbs[Find(dbs, ConnKey(dbs[j]), ConnKey)] == dbs[j];
    }
  }
}
