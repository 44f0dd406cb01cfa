/** The CSV import of the server page (`parseCSVData` in
    frontend/js/serverManager.js): the naive reader, the projection of each
    data line onto a server record in which every field is stored twice (a
    current name and an older one kept for compatibility), the normalisation
    of the OS type, and the rows with name, host, SSH port and OS type set. */
module ServerCsv {
  import opened Text
  import opened NaiveCsv
  import opened Dashboard

  // ---------------------------------------------------------------------------
  // OS types
  // ---------------------------------------------------------------------------

  /** `validOsTypes`. */
  const ValidOsTypes: seq<string> := ["ETC", "AWS_LINUX", "UBUNTU", "CENTOS", "RHEL", "WINDOWS"]

  /** The OS type a value becomes: upper-cased, kept when it is a valid type,
      otherwise looked up in `osMap`, otherwise 'ETC'. The keys looked up are
      upper-cased, so no member every object inherits can answer the lookup. */
  function OsTypeOf(v: string): (r: string)
    ensures r in ValidOsTypes
    ensures ToUpper(v) in ValidOsTypes ==> r == ToUpper(v)
  {
    var u := ToUpper(v);
    if u in ValidOsTypes then u
    else if u == "LINUX" then "ETC"
    else if u == "AWS" then "AWS_LINUX"
    else if u == "REDHAT" then "RHEL"
    else "ETC"
  }

  /** A valid type is recognised in lower case too. */
  lemma OsTypeOfLower(c: string)
    requires c in ValidOsTypes
    ensures OsTypeOf(ToLower(c)) == c
  {
    var w := ToLower(c);
    forall i | 0 <= i < |c| ensures UpperChar(LowerChar(c[i])) == c[i] {
      assert c[i] == '_' || 'A' <= c[i] <= 'Z' by {
        assert c == "ETC" || c == "AWS_LINUX" || c == "UBUNTU" || c == "CENTOS" || c == "RHEL" || c == "WINDOWS";
      }
    }
    assert ToUpper(w) == c;
  }

  /** The three spellings `osMap` knows, and the fallback. */
  lemma OsTypeAliases()
    ensures OsTypeOf("linux") == "ETC"
    ensures OsTypeOf("Aws") == "AWS_LINUX"
    ensures OsTypeOf("redhat") == "RHEL"
    ensures OsTypeOf("debian") == "ETC"
  {
    LinuxAlias();
    AwsAlias();
    RedhatAlias();
    UnknownAlias();
  }

  lemma LinuxAlias()
    ensures OsTypeOf("linux") == "ETC"
  {
    assert ToUpper("linux") == "LINUX";
  }

  lemma AwsAlias()
    ensures OsTypeOf("Aws") == "AWS_LINUX"
  {
    assert ToUpper("Aws") == "AWS";
  }

  lemma RedhatAlias()
    ensures OsTypeOf("redhat") == "RHEL"
  {
    assert ToUpper("redhat") == "REDHAT";
  }

  lemma UnknownAlias()
    ensures OsTypeOf("debian") == "ETC"
  {
    assert ToUpper("debian") == "DEBIAN";
  }

  // ---------------------------------------------------------------------------
  // Records
  // ---------------------------------------------------------------------------

  /** A server object. Each field is stored under its current name and under
      the name older files used: `name`/`hostname`, `host`/`ip`,
      `sshPort`/`port`, `osType`/`os`; "" is unset. `status` is read by the
      retry filter but never written by this page. */
  datatype Server = Server(name: string, hostname: string, host: string, ip: string,
                           sshPort: string, port: string, osType: string, os: string,
                           status: string, result: Outcome, message: string)

  const NoServer: Server := Server("", "", "", "", "", "", "", "", "", NoResult, "")

  /** One turn of `headers.forEach` with a set value `v`. A current header
      sets both names of its field; an older one sets the current name only
      when it is still unset. */
  function ServerStep(s: Server, header: string, v: string): Server
    requires v != ""
  {
    if header == "name" then s.(name := v, hostname := v)
    else if header == "host" then s.(host := v, ip := v)
    else if header == "sshport" || header == "ssh_port" then s.(sshPort := v, port := v)
    else if header == "ostype" || header == "os_type" || header == "os" then
      s.(osType := OsTypeOf(v), os := OsTypeOf(v))
    else if header == "hostname" then s.(name := if s.name == "" then v else s.name, hostname := v)
    else if header == "ip" then s.(host := if s.host == "" then v else s.host, ip := v)
    else if header == "port" then s.(sshPort := if s.sshPort == "" then v else s.sshPort, port := v)
    else s
  }

  /** The `server` object after the first `n` headers; a missing or empty
      value is skipped. */
  function ProjectServer(headers: seq<string>, values: seq<string>, n: nat): Server
    requires n <= |headers|
  {
    if n == 0 then NoServer
    else
      var s := ProjectServer(headers, values, n - 1);
      if n - 1 < |values| && values[n - 1] != "" then ServerStep(s, headers[n - 1], values[n - 1]) else s
  }

  /** A data line: ignored under three values; kept when name, host, SSH port
      and OS type are set, with an empty result. */
  function ServerOf(headers: seq<string>, values: seq<string>): Option<Server> {
    if |values| < 3 then None
    else
      var s := ProjectServer(headers, values, |headers|);
      if s.name != "" && s.host != "" && s.sshPort != "" && s.osType != "" then Some(s.(result := NoResult))
      else None
  }

  /** The servers of the data lines, in line order. */
  function ServersOf(headers: seq<string>, lines: seq<string>): seq<Server>
    decreases |lines|
  {
    if lines == [] then []
    else
      var earlier := ServersOf(headers, lines[..|lines| - 1]);
      match ServerOf(headers, NaiveCells(lines[|lines| - 1]))
      case Some(s) => earlier + [s]
      case None => earlier
  }

  /** The servers `parseCSVData` returns. */
  function ParsedServers(csv: string): seq<Server> {
    ServersOfLines(NaiveLines(csv))
  }

  /** The servers of a file's non-blank lines: none without a data line,
      otherwise the data lines projected through the header line. */
  function ServersOfLines(lines: seq<string>): seq<Server> {
    if |lines| < 2 then [] else ServersOf(NaiveHeaders(lines[0]), lines[1..])
  }

  // ---------------------------------------------------------------------------
  // Which column wins
  // ---------------------------------------------------------------------------

  /** The three fields a current and an older header both write. */
  datatype Field = NameField | HostField | PortField

  /** The headers that write a field under its current name. */
  function CurrentHeaders(f: Field): set<string> {
    match f
    case NameField => {"name"}
    case HostField => {"host"}
    case PortField => {"sshport", "ssh_port"}
  }

  /** The header older files used for the field. */
  function OlderHeaders(f: Field): set<string> {
    match f
    case NameField => {"hostname"}
    case HostField => {"ip"}
    case PortField => {"port"}
  }

  /** The field under its current name (`name`, `host`, `sshPort`). */
  function Current(s: Server, f: Field): string {
    match f
    case NameField => s.name
    case HostField => s.host
    case PortField => s.sshPort
  }

  /** The field under its older name (`hostname`, `ip`, `port`). */
  function Older(s: Server, f: Field): string {
    match f
    case NameField => s.hostname
    case HostField => s.ip
    case PortField => s.port
  }

  /** The last set value among the first `n` under one of the headers `hs`,
      or "". */
  function LastSet(headers: seq<string>, values: seq<string>, n: nat, hs: set<string>): string
    requires n <= |headers|
  {
    if n == 0 then ""
    else if n - 1 < |values| && values[n - 1] != "" && headers[n - 1] in hs then values[n - 1]
    else LastSet(headers, values, n - 1, hs)
  }

  /** The first set value among the first `n` under one of the headers `hs`,
      or "". */
  function FirstSet(headers: seq<string>, values: seq<string>, n: nat, hs: set<string>): string
    requires n <= |headers|
  {
    if n == 0 then ""
    else
      var earlier := FirstSet(headers, values, n - 1, hs);
      if earlier != "" then earlier
      else if n - 1 < |values| && values[n - 1] != "" && headers[n - 1] in hs then values[n - 1]
      else ""
  }

  /** JavaScript's `a || b` on strings. */
  function Or(a: string, b: string): (r: string)
    ensures r == "" <==> a == "" && b == ""
  {
    if a != "" then a else b
  }

  /** What one step does to a field's two names. */
  lemma StepField(s: Server, h: string, v: string, f: Field)
    requires v != ""
    ensures h in CurrentHeaders(f) ==> Current(ServerStep(s, h, v), f) == v && Older(ServerStep(s, h, v), f) == v
    ensures h in OlderHeaders(f) ==>
      Current(ServerStep(s, h, v), f) == Or(Current(s, f), v) && Older(ServerStep(s, h, v), f) == v
    ensures h !in CurrentHeaders(f) && h !in OlderHeaders(f) ==>
      Current(ServerStep(s, h, v), f) == Current(s, f) && Older(ServerStep(s, h, v), f) == Older(s, f)
  {
  }

  /** The current name holds the last value under the current header, or,
      when there is none, the first value under the older header; the older
      name holds the last value under either. */
  lemma {:induction false} ProjectField(headers: seq<string>, values: seq<string>, n: nat, f: Field)
    requires n <= |headers|
    ensures var s := ProjectServer(headers, values, n);
      Current(s, f) == Or(LastSet(headers, values, n, CurrentHeaders(f)), FirstSet(headers, values, n, OlderHeaders(f))) &&
      Older(s, f) == LastSet(headers, values, n, CurrentHeaders(f) + OlderHeaders(f))
    decreases n
  {
    if n > 0 {
      ProjectField(headers, values, n - 1, f);
      if n - 1 < |values| && values[n - 1] != "" {
        StepField(ProjectServer(headers, values, n - 1), headers[n - 1], values[n - 1], f);
      }
    }
  }

  /** The headers that write the OS type. */
  const OsHeaders: set<string> := {"ostype", "os_type", "os"}

  /** Both names of the OS type hold the last value under an OS header,
      normalised. */
  lemma {:induction false} ProjectOsType(headers: seq<string>, values: seq<string>, n: nat)
    requires n <= |headers|
    ensures var s := ProjectServer(headers, values, n); var last := LastSet(headers, values, n, OsHeaders);
      s.osType == s.os && s.osType == (if last == "" then "" else OsTypeOf(last))
    decreases n
  {
    if n > 0 {
      ProjectOsType(headers, values, n - 1);
      if n - 1 < |values| && values[n - 1] != "" {
        StepOsType(ProjectServer(headers, values, n - 1), headers[n - 1], values[n - 1]);
      }
    }
  }

  lemma StepOsType(s: Server, h: string, v: string)
    requires v != ""
    ensures h in OsHeaders ==> ServerStep(s, h, v).osType == OsTypeOf(v) && ServerStep(s, h, v).os == OsTypeOf(v)
    ensures h !in OsHeaders ==> ServerStep(s, h, v).osType == s.osType && ServerStep(s, h, v).os == s.os
  {
  }

  /** No line sets `status`, a result or a message. */
  lemma {:induction false} ProjectLeavesState(headers: seq<string>, values: seq<string>, n: nat)
    requires n <= |headers|
    ensures var s := ProjectServer(headers, values, n);
      s.status == "" && s.result == NoResult && s.message == ""
    decreases n
  {
    if n > 0 {
      ProjectLeavesState(headers, values, n - 1);
    }
  }

  /** An imported server: its four required fields set, its OS type valid
      under both names, and nothing sent yet. */
  predicate Fresh(s: Server) {
    s.name != "" && s.host != "" && s.sshPort != "" && s.osType in ValidOsTypes && s.os == s.osType
    && s.status == "" && s.result == NoResult && s.message == ""
  }

  lemma {:induction false} ServersFresh(headers: seq<string>, lines: seq<string>)
    ensures forall k :: 0 <= k < |ServersOf(headers, lines)| ==> Fresh(ServersOf(headers, lines)[k])
    decreases |lines|
  {
    if lines != [] {
      var values := NaiveCells(lines[|lines| - 1]);
      ServersFresh(headers, lines[..|lines| - 1]);
      ProjectOsType(headers, values, |headers|);
      ProjectLeavesState(headers, values, |headers|);
    }
  }

  /** Every imported server is fresh. */
  lemma ParsedServersFresh(csv: string)
    ensures |NaiveLines(csv)| < 2 ==> ParsedServers(csv) == []
    ensures forall k :: 0 <= k < |ParsedServers(csv)| ==> Fresh(ParsedServers(csv)[k])
  {
    var lines := NaiveLines(csv);
    if |lines| >= 2 {
      ServersFresh(NaiveHeaders(lines[0]), lines[1..]);
    }
  }

  /** A line with a current and an older name column: the older one only
      fills in for an empty current one, and `hostname` keeps the last
      set value of either. */
  lemma NameColumnPrecedence(a: string, b: string)
    requires a != "" && b != ""
    ensures var both := ProjectServer(["hostname", "name"], [b, a], 2);
      both.name == a && both.hostname == a
    ensures var older := ProjectServer(["hostname", "name"], [b, ""], 2);
      older.name == b && older.hostname == b
  {
    var headers := ["hostname", "name"];
    ProjectField(headers, [b, a], 2, NameField);
    ProjectField(headers, [b, ""], 2, NameField);
    assert LastSet(headers, [b, ""], 1, {"name"}) == "";
    assert FirstSet(headers, [b, ""], 1, {"hostname"}) == b;
    assert LastSet(headers, [b, ""], 1, {"name", "hostname"}) == b;
  }

  // ---------------------------------------------------------------------------
  // The loops
  // ---------------------------------------------------------------------------

  /** The header loop for one data line. */
  method ProjectServerRow(headers: seq<string>, values: seq<string>) returns (server: Server)
    ensures server == ProjectServer(headers, values, |headers|)
  {
    server := NoServer;
    var index := 0;
    while index < |headers|
      invariant 0 <= index <= |headers|
      invariant server == ProjectServer(headers, values, index)
    {
      if index < |values| && values[index] != "" {
        server := ServerStep(server, headers[index], values[index]);
      }
      index := index + 1;
    }
  }

  /** One data line: the server, when its required fields are set. */
  method ReadServer(headers: seq<string>, values: seq<string>) returns (server: Option<Server>)
    ensures server == ServerOf(headers, values)
  {
    if |values| < 3 {
      return None;
    }
    var s := ProjectServerRow(headers, values);
    if s.name != "" && s.host != "" && s.sshPort != "" && s.osType != "" {
      server := Some(s.(result := NoResult));
    } else {
      server := None;
    }
  }

  /** The loop over the data lines. */
  method CollectServers(headers: seq<string>, data: seq<string>) returns (servers: seq<Server>)
    ensures servers == ServersOf(headers, data)
    ensures forall k :: 0 <= k < |servers| ==> Fresh(servers[k])
  {
    servers := [];
    var i := 0;
    while i < |data|
      invariant 0 <= i <= |data|
      invariant servers == ServersOf(headers, data[..i])
    {
      var server := ReadServer(headers, NaiveCells(data[i]));
      assert data[..i + 1][..i] == data[..i];
      if server.Some? {
        servers := servers + [server.value];
      }
      i := i + 1;
    }
    assert data[..|data|] == data;
    ServersFresh(headers, data);
  }

  /** `parseCSVData`. */
  method ParseCSVData(csv: string) returns (servers: seq<Server>)
    ensures servers == ParsedServers(csv)
    ensures forall k :: 0 <= k < |servers| ==> Fresh(servers[k])
  {
    servers := ReadServers(NaiveLines(csv));
  }

  /** Everything `parseCSVData` does after splitting the lines. */
  method ReadServers(lines: seq<string>) returns (servers: seq<Server>)
    ensures servers == ServersOfLines(lines)
    ensures forall k :: 0 <= k < |servers| ==> Fresh(servers[k])
  {
    if |lines| < 2 {
      return [];
    }
    servers := CollectServers(NaiveHeaders(lines[0]), lines[1..]);
  }
}
