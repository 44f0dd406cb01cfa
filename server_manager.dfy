/** The server page (frontend/js/serverManager.js): the batch of servers an
    import replaces, the servers a submission sends and the request it sends
    for each, and the loops that move each sent server from '' or 'error'
    through 'processing' to 'success' or 'error', looked up by name, host
    and SSH port, each read under its current name or else its older one. */
module ServerManager {
  import opened Text
  import opened NaiveCsv
  import opened Dashboard
  import opened Submission
  import opened ServerCsv

  /** The filter of `getCurrentPageServers`: each of the four fields set
      under one of its two names. */
  predicate Qualifies(s: Server) {
    Or(s.name, s.hostname) != "" && Or(s.host, s.ip) != "" && Or(s.sshPort, s.port) != "" && Or(s.osType, s.os) != ""
  }

  /** The filter of `retryFailedServers` and of the retry button: 'error',
      and the older names and `status` set. */
  predicate RetryableServer(s: Server) {
    s.result == Failed && s.hostname != "" && s.ip != "" && s.port != "" && s.os != "" && s.status != ""
  }

  /** The key a server is looked up by: name, host and SSH port, each under
      its current name or else its older one. */
  datatype ServerKey = ServerKey(name: string, host: string, sshPort: string)

  function KeyOf(s: Server): ServerKey {
    ServerKey(Or(s.name, s.hostname), Or(s.host, s.ip), Or(s.sshPort, s.port))
  }

  /** What settling writes: `result` and `resultMessage`. */
  function MarkServer(s: Server, result: Outcome, message: string): Server {
    s.(result := result, message := message)
  }

  function StatusOf(s: Server): string {
    s.status
  }

  lemma MarkKeepsKey()
    ensures KeepsKey(KeyOf, MarkServer) && Overwrites(MarkServer) && KeepsKey(StatusOf, MarkServer)
  {
  }

  // ---------------------------------------------------------------------------
  // Requests
  // ---------------------------------------------------------------------------

  /** The JSON body of one POST, without `targetUrl`; the FTP, Telnet and VNC
      ports are absent from the bulk retry's body. */
  datatype ServerRequest = ServerRequest(name: string, host: string, sshPort: int, osType: string,
                                         ftpPort: Option<int>, telnetPort: Option<int>, vncPort: Option<int>)

  /** The request of the upload and of the single retry. A server record has
      no `ftpPort`, `telnetPort` or `vncPort`, so `parseInt` of each is NaN
      and the defaults 21, 23 and 5900 are always sent. */
  function FullRequest(s: Server): (r: ServerRequest)
    ensures r.ftpPort == Some(21) && r.telnetPort == Some(23) && r.vncPort == Some(5900)
  {
    ServerRequest(Or(s.name, s.hostname), Or(s.host, s.ip), ParseIntOr(Or(s.sshPort, s.port), 22),
                  Or(Or(s.osType, s.os), "ETC"), Some(21), Some(23), Some(5900))
  }

  /** The request of the bulk retry. */
  function RetryRequest(s: Server): (r: ServerRequest)
    ensures r.ftpPort == None && r.telnetPort == None && r.vncPort == None
  {
    ServerRequest(Or(s.name, s.hostname), Or(s.host, s.ip), ParseIntOr(Or(s.sshPort, s.port), 22),
                  Or(Or(s.osType, s.os), "ETC"), None, None, None)
  }

  /** The two requests agree on the four fields the bulk retry sends. */
  lemma RequestsAgree(s: Server)
    ensures RetryRequest(s) == FullRequest(s).(ftpPort := None, telnetPort := None, vncPort := None)
  {
  }

  /** An imported server is sent with its own name, host and OS type, and
      with its SSH port read as a number, 22 when it does not read as a
      non-zero one. */
  lemma RequestOfFresh(s: Server)
    requires Fresh(s)
    ensures var r := FullRequest(s);
      r.name == s.name && r.host == s.host && r.osType == s.osType && r.osType in ValidOsTypes &&
      r.sshPort != 0 && (ParseInt(s.sshPort).Some? && ParseInt(s.sshPort).value != 0 ==> r.sshPort == ParseInt(s.sshPort).value) &&
      (ParseInt(s.sshPort).None? || ParseInt(s.sshPort).value == 0 ==> r.sshPort == 22)
  {
  }

  // ---------------------------------------------------------------------------
  // The page
  // ---------------------------------------------------------------------------

  /** The server page's state: `allServers`, `currentPageNumber` and
      `serversPerPage`. */
  class ServerManager {
    var allServers: seq<Server>
    var currentPageNumber: int
    var serversPerPage: int

    constructor()
      ensures allServers == [] && currentPageNumber == 1 && serversPerPage == 20
    {
      allServers := [];
      currentPageNumber := 1;
      serversPerPage := 20;
    }

    /** No server on the page has `status` set; every state the page reaches
        keeps this. */
    ghost predicate NoStatus()
      reads this
    {
      forall k :: 0 <= k < |allServers| ==> allServers[k].status == ""
    }

    /** `getCurrentPageServers`: the servers with each field set under one of
        its names, in table order. */
    function CurrentPageServers(): (r: seq<Server>)
      reads this
      ensures forall s :: s in r <==> s in allServers && Qualifies(s)
    {
      Filter(allServers, Qualifies)
    }

    /** `importCSVFile`: a leading byte-order mark removed, the file parsed;
        a file without servers changes nothing, otherwise its servers
        replace the whole batch and the view returns to page 1. `servers` is
        what the file held. */
    method ImportCSVFile(csv: string) returns (servers: seq<Server>)
      modifies this
      ensures servers == ParsedServers(StripBom(csv))
      ensures if servers == [] then allServers == old(allServers) && currentPageNumber == old(currentPageNumber)
        else allServers == servers && currentPageNumber == 1
      ensures serversPerPage == old(serversPerPage)
      ensures old(NoStatus()) ==> NoStatus()
    {
      servers := ParseCSVData(StripBom(csv));
      if servers != [] {
        ReplaceBatch(servers);
      }
    }

    /** The batch replaced by freshly read servers, back on page 1. */
    method ReplaceBatch(servers: seq<Server>)
      requires forall k :: 0 <= k < |servers| ==> Fresh(servers[k])
      modifies this
      ensures allServers == servers && currentPageNumber == 1 && serversPerPage == old(serversPerPage)
      ensures NoStatus()
    {
      allServers := servers;
      currentPageNumber := 1;
    }

    /** The submission loop of `uploadServers` and `retryFailedServers`. */
    method SubmitServers(servers: seq<Server>, replies: seq<Reply>, mode: Mode) returns (outcomes: seq<bool>)
      requires |servers| <= |replies|
      modifies this
      ensures var r := Submit(old(allServers), servers, replies, mode, KeyOf, MarkServer, 0);
        allServers == r.rows && outcomes == r.outcomes
      ensures currentPageNumber == old(currentPageNumber) && serversPerPage == old(serversPerPage)
    {
      outcomes := [];
      var i := 0;
      while i < |servers|
        invariant 0 <= i <= |servers|
        invariant currentPageNumber == old(currentPageNumber) && serversPerPage == old(serversPerPage)
        invariant Submit(old(allServers), servers, replies, mode, KeyOf, MarkServer, 0) ==
          Prepend(outcomes, Submit(allServers, servers, replies, mode, KeyOf, MarkServer, i))
      {
        var server := servers[i];
        var serverIndex := Find(allServers, KeyOf(server), KeyOf);
        if serverIndex == -1 {
          SubmitSkipStep(allServers, servers, replies, mode, KeyOf, MarkServer, i);
          i := i + 1;
          continue;
        }
        SubmitFoundStep(allServers, servers, replies, mode, KeyOf, MarkServer, i, serverIndex);
        var succeeded := SettleServer(serverIndex, mode, replies[i]);
        PrependStep(outcomes, succeeded, Submit(allServers, servers, replies, mode, KeyOf, MarkServer, i + 1));
        outcomes := outcomes + [succeeded];
        i := i + 1;
      }
      PrependEnd(outcomes, allServers);
    }

    /** The body of the loop for a server found at `serverIndex`: marked
        'processing', then settled by the reply. */
    method SettleServer(serverIndex: nat, mode: Mode, reply: Reply) returns (succeeded: bool)
      requires serverIndex < |allServers|
      modifies this
      ensures allServers == SettleAt(old(allServers), serverIndex, MarkServer, mode, reply)
      ensures succeeded == (Settle(mode, reply).0 == Succeeded)
      ensures currentPageNumber == old(currentPageNumber) && serversPerPage == old(serversPerPage)
    {
      allServers := allServers[serverIndex := allServers[serverIndex].(result := Processing)];
      var settled := Settle(mode, reply);
      allServers := allServers[serverIndex := allServers[serverIndex].(result := settled.0, message := settled.1)];
      succeeded := settled.0 == Succeeded;
    }

    /** `uploadServers`: nothing happens without a target URL and a token or
        when no server qualifies; otherwise the qualifying servers go
        through the loop. The counts are those of the completion message. */
    method UploadServers(targetUrl: string, token: string, replies: seq<Reply>)
      returns (successCount: nat, failCount: nat)
      requires |allServers| <= |replies|
      modifies this
      ensures var servers := Filter(old(allServers), Qualifies);
        if targetUrl == "" || token == "" || servers == [] then
          allServers == old(allServers) && successCount == 0 && failCount == 0
        else
          var r := Submit(old(allServers), servers, replies, Upload, KeyOf, MarkServer, 0);
          allServers == r.rows && successCount == SuccessCount(r.outcomes) && successCount + failCount == |r.outcomes|
      ensures currentPageNumber == old(currentPageNumber) && serversPerPage == old(serversPerPage)
      ensures old(NoStatus()) ==> NoStatus()
    {
      successCount, failCount := 0, 0;
      if targetUrl == "" || token == "" {
        return;
      }
      var servers := CurrentPageServers();
      if |servers| == 0 {
        return;
      }
      var before := allServers;
      var outcomes := SubmitServers(servers, replies, Upload);
      SubmitKeepsStatus(before, servers, replies, Upload);
      successCount := SuccessCount(outcomes);
      failCount := |outcomes| - successCount;
    }

    /** `retryFailedServers`: nothing happens without a target URL and a
        token or when no server passes the retry filter; otherwise those go
        through the loop. Since `status` is never set, a page that keeps
        `NoStatus` never sends anything here. */
    method RetryFailedServers(targetUrl: string, token: string, replies: seq<Reply>)
      requires |allServers| <= |replies|
      modifies this
      ensures var servers := Filter(old(allServers), RetryableServer);
        if targetUrl == "" || token == "" || servers == [] then allServers == old(allServers)
        else allServers == Submit(old(allServers), servers, replies, Retry, KeyOf, MarkServer, 0).rows
      ensures old(NoStatus()) ==> allServers == old(allServers)
      ensures currentPageNumber == old(currentPageNumber) && serversPerPage == old(serversPerPage)
    {
      if targetUrl == "" || token == "" {
        return;
      }
      var failedServers := Filter(allServers, RetryableServer);
      NoStatusNoRetry(allServers);
      if |failedServers| == 0 {
        return;
      }
      var outcomes := SubmitServers(failedServers, replies, Retry);
    }

    /** `retrySingleServer(serverIndex)`: only a server whose result is
        'error' is resent, and only with a target URL and a token; no other
        server changes. */
    method RetrySingleServer(serverIndex: int, targetUrl: string, token: string, reply: Reply)
      modifies this
      ensures var rows := old(allServers);
        if targetUrl == "" || token == "" || !(0 <= serverIndex < |rows|) || rows[serverIndex].result != Failed then
          allServers == rows
        else
          allServers == SettleAt(rows, serverIndex, MarkServer, Retry, reply)
      ensures currentPageNumber == old(currentPageNumber) && serversPerPage == old(serversPerPage)
      ensures old(NoStatus()) ==> NoStatus()
    {
      if targetUrl == "" || token == "" {
        return;
      }
      if !(0 <= serverIndex < |allServers|) || allServers[serverIndex].result != Failed {
        return;
      }
      var succeeded := SettleServer(serverIndex, Retry, reply);
    }
  }

  // ---------------------------------------------------------------------------
  // The imported batch
  // ---------------------------------------------------------------------------

  /** Every imported server qualifies for upload and is looked up by its own
      name, host and SSH port. */
  lemma ImportedQualify(csv: string)
    ensures Filter(ParsedServers(csv), Qualifies) == ParsedServers(csv)
    ensures forall k :: 0 <= k < |ParsedServers(csv)| ==>
      KeyOf(ParsedServers(csv)[k]) == ServerKey(ParsedServers(csv)[k].name, ParsedServers(csv)[k].host, ParsedServers(csv)[k].sshPort)
  {
    ParsedServersFresh(csv);
    FreshQualify(ParsedServers(csv));
  }

  lemma FreshQualify(rows: seq<Server>)
    requires forall k :: 0 <= k < |rows| ==> Fresh(rows[k])
    ensures Filter(rows, Qualifies) == rows
    ensures forall k :: 0 <= k < |rows| ==> KeyOf(rows[k]) == ServerKey(rows[k].name, rows[k].host, rows[k].sshPort)
  {
    FilterAll(rows, Qualifies);
  }

  /** Without a `status`, no server passes the retry filter. */
  lemma {:induction false} NoStatusNoRetry(rows: seq<Server>)
    ensures (forall k :: 0 <= k < |rows| ==> rows[k].status == "") ==> Filter(rows, RetryableServer) == []
    decreases |rows|
  {
    if rows != [] {
      NoStatusNoRetry(rows[1..]);
      assert forall k :: 0 <= k < |rows[1..]| ==> rows[1..][k] == rows[k + 1];
    }
  }

  /** The loops never write `status`. */
  lemma SubmitKeepsStatus(rows: seq<Server>, items: seq<Server>, replies: seq<Reply>, mode: Mode)
    requires |items| <= |replies|
    ensures var after := Submit(rows, items, replies, mode, KeyOf, MarkServer, 0).rows;
      |after| == |rows| && forall k :: 0 <= k < |rows| ==> after[k].status == rows[k].status
  {
    MarkKeepsKey();
    SubmitKeeps(rows, items, replies, mode, KeyOf, MarkServer, StatusOf, 0);
    var after := Submit(rows, items, replies, mode, KeyOf, MarkServer, 0).rows;
    forall k | 0 <= k < |rows| ensures after[k].status == rows[k].status {
      assert StatusOf(after[k]) == StatusOf(rows[k]);
    }
  }

  /** Neither an upload nor a retry sets a `status`, so after any run of
      either loop over an imported batch the retry filter is still empty. */
  lemma RetryFilterStaysEmpty(rows: seq<Server>, items: seq<Server>, replies: seq<Reply>, mode: Mode)
    requires |items| <= |replies|
    requires forall k :: 0 <= k < |rows| ==> Fresh(rows[k])
    ensures Filter(Submit(rows, items, replies, mode, KeyOf, MarkServer, 0).rows, RetryableServer) == []
  {
    SubmitKeepsStatus(rows, items, replies, mode);
    NoStatusNoRetry(Submit(rows, items, replies, mode, KeyOf, MarkServer, 0).rows);
  }

  /** An upload right after an import of servers with distinct keys sends
      the whole batch: each server ends with its own reply settled, and
      there is one result per server. */
  lemma UploadAfterImport(csv: string, replies: seq<Reply>)
    requires |ParsedServers(csv)| <= |replies|
    requires DistinctKeys(ParsedServers(csv), KeyOf)
    ensures var servers := ParsedServers(csv);
      var r := Submit(servers, Filter(servers, Qualifies), replies, Upload, KeyOf, MarkServer, 0);
      |r.outcomes| == |servers| && |r.rows| == |servers| &&
      forall j :: 0 <= j < |servers| ==>
        r.rows[j] == MarkServer(servers[j], UploadSettle(replies[j]).0, UploadSettle(replies[j]).1)
  {
    var servers := ParsedServers(csv);
    ImportedQualify(csv);
    MarkKeepsKey();
    SubmitSettlesEach(servers, servers, replies, Upload, KeyOf, MarkServer);
    forall j | 0 <= j < |servers| ensures Find(servers, KeyOf(servers[j]), KeyOf) == j {
      FoundAt(servers, servers[j], KeyOf);
      assert servers[Find(servers, KeyOf(servers[j]), KeyOf)] == servers[j];
    }
  }

  /** Two servers of one import with the same name, host and SSH port: the
      lookup of either lands on the first, so the first twin is settled by
      the reply of the last one, and the later twin is never settled and
      keeps no result. */
  lemma UploadTwins(servers: seq<Server>, replies: seq<Reply>, j: nat, k: nat)
    requires |servers| <= |replies|
    requires forall m :: 0 <= m < |servers| ==> Fresh(servers[m])
    requires j < k < |servers| && KeyOf(servers[j]) == KeyOf(servers[k])
    requires forall m :: 0 <= m < j ==> KeyOf(servers[m]) != KeyOf(servers[j])
    requires forall m :: k < m < |servers| ==> KeyOf(servers[m]) != KeyOf(servers[k])
    ensures var r := Submit(servers, Filter(servers, Qualifies), replies, Upload, KeyOf, MarkServer, 0);
      |r.rows| == |servers| &&
      r.rows[k] == servers[k] && r.rows[k].result == NoResult &&
      r.rows[j] == MarkServer(servers[j], UploadSettle(replies[k]).0, UploadSettle(replies[k]).1)
  {
    FreshQualify(servers);
    MarkKeepsKey();
    assert Find(servers, KeyOf(servers[k]), KeyOf) == j;
    forall m | k < m < |servers| ensures Find(servers, KeyOf(servers[m]), KeyOf) != j {
    }
    LastReplyDecides(servers, servers, replies, Upload, KeyOf, MarkServer, 0, k);
    forall m | 0 <= m < |servers| ensures Find(servers, KeyOf(servers[m]), KeyOf) != k {
    }
    SubmitFrame(servers, servers, replies, Upload, KeyOf, MarkServer, 0, k);
  }
}
