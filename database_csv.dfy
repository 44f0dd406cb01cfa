/** The CSV import of the database page (`parseCSVData` in
    frontend/js/databaseManager.js): the naive reader, the normalisation of
    `databaseType`, `clusterType` and `port`, the rows with all seven fields
    set, and the grouping of rows into one connection per key with one
    cluster per row. */
module DatabaseCsv {
  import opened Text
  import opened CsvParser
  import opened NaiveCsv
  import opened Dashboard

  // ---------------------------------------------------------------------------
  // Normalisation
  // ---------------------------------------------------------------------------

  /** `validDbTypes`. */
  const ValidDbTypes: seq<string> := ["Mysql", "MariaDB", "PostgreSQL", "Redshift", "SQLServer", "AzureSQL",
    "Oracle", "Tibero", "MongoDB", "BigQuery", "Presto", "Trino", "Hive", "Cassandra", "DynamoDB", "Snowflake",
    "Impala", "Redis", "SingleStore", "Hana", "CustomDataSource"]

  /** The own keys of `typeMap`. */
  function TypeAlias(key: string): Option<string> {
    if key == "mysql" then Some("Mysql")
    else if key == "postgresql" || key == "postgres" then Some("PostgreSQL")
    else if key == "mariadb" then Some("MariaDB")
    else if key == "oracle" then Some("Oracle")
    else if key == "mongodb" then Some("MongoDB")
    else None
  }

  /** The `databaseType` a value becomes: kept when it is a valid type,
      otherwise looked up lower-cased among the aliases, otherwise
      'PostgreSQL'. Only the own keys of the alias table are consulted. */
  function NormalizeDbType(v: string): (r: string)
    ensures r in ValidDbTypes
    ensures v in ValidDbTypes ==> r == v
  {
    if v in ValidDbTypes then v
    else match TypeAlias(ToLower(v))
      case Some(t) => t
      case None => "PostgreSQL"
  }

  /** The spellings the alias table lists land on their type whatever
      their case. */
  lemma DbTypeAliases()
    ensures NormalizeDbType("MySQL") == "Mysql"
    ensures NormalizeDbType("postgres") == "PostgreSQL"
  {
    assert "MySQL" !in ValidDbTypes;
    assert ToLower("MySQL") == "mysql";
    assert "postgres" !in ValidDbTypes;
    assert ToLower("postgres") == "postgres";
  }

  /** A type neither valid nor an alias becomes 'PostgreSQL'. */
  lemma DbTypeFallback()
    ensures NormalizeDbType("mssql") == "PostgreSQL"
  {
    assert "mssql" !in ValidDbTypes;
    assert ToLower("mssql") == "mssql";
  }

  /** What `typeMap[k]` yields on an object literal: an own key's value, or a
      member every object inherits. `constructor` and `__proto__` are the
      only all-lower-case names on Object.prototype. */
  datatype Lookup = Own(value: string) | Inherited(member: string) | Absent

  function TypeMapGet(key: string): Lookup {
    match TypeAlias(key)
    case Some(t) => Own(t)
    case None => if key == "constructor" || key == "__proto__" then Inherited(key) else Absent
  }

  /** A `databaseType` as the code stores it: a type name, or the inherited
      member the lookup returned (a function or an object, both truthy). */
  datatype DbTypeValue = TypeName(name: string) | ObjectMember(member: string)

  /** `databaseType` as written: `typeMap[dbType.toLowerCase()] || 'PostgreSQL'`. */
  function NormalizeDbTypeAsWritten(v: string): DbTypeValue {
    if v in ValidDbTypes then TypeName(v)
    else match TypeMapGet(ToLower(v))
      case Own(t) => TypeName(t)
      case Inherited(m) => ObjectMember(m)
      case Absent => TypeName("PostgreSQL")
  }

  /** As written, the value `constructor` leaves the list of valid types: it
      becomes the Object constructor, which passes the required-field check,
      where 'PostgreSQL' was meant. */
  lemma ConstructorEscapes()
    ensures NormalizeDbTypeAsWritten("constructor") == ObjectMember("constructor")
    ensures NormalizeDbType("constructor") == "PostgreSQL"
  {
    assert "constructor" !in ValidDbTypes;
    assert ToLower("constructor") == "constructor";
  }

  /** Away from the two inherited names the code as written and the
      corrected lookup agree. */
  lemma AsWrittenAgreesElsewhere(v: string)
    requires ToLower(v) != "constructor" && ToLower(v) != "__proto__"
    ensures NormalizeDbTypeAsWritten(v) == TypeName(NormalizeDbType(v))
  {
  }

  /** `validClusterTypes`. */
  const ValidClusterTypes: seq<string> := ["Primary", "Secondary", "Single"]

  /** `v.charAt(0).toUpperCase() + v.slice(1).toLowerCase()`. */
  function Capitalize(v: string): (r: string)
    requires v != []
    ensures |r| == |v|
  {
    [UpperChar(v[0])] + ToLower(v[1..])
  }

  /** The `clusterType` a non-empty value becomes: kept when valid,
      otherwise its capitalised form when that is valid, otherwise 'Single'. */
  function NormalizeClusterType(v: string): (r: string)
    requires v != []
    ensures r in ValidClusterTypes
    ensures v in ValidClusterTypes ==> r == v
  {
    if v in ValidClusterTypes then v
    else
      var c := Capitalize(v);
      if c in ValidClusterTypes then c else "Single"
  }

  lemma UpperOfLower(c: char)
    ensures UpperChar(LowerChar(c)) == UpperChar(c)
  {
  }

  /** The capitalised form only depends on the lower-cased text. */
  lemma CapitalizeOfLower(v: string, w: string)
    requires v != [] && ToLower(v) == ToLower(w)
    ensures w != [] && Capitalize(v) == Capitalize(w)
  {
    assert LowerChar(v[0]) == ToLower(v)[0] == LowerChar(w[0]);
    UpperOfLower(v[0]);
    UpperOfLower(w[0]);
    assert ToLower(v[1..]) == ToLower(v)[1..];
    assert ToLower(w[1..]) == ToLower(w)[1..];
  }

  /** A cluster type is recognised in any case: 'primary', 'PRIMARY' and
      'Primary' all give 'Primary'. */
  lemma ClusterTypeIgnoresCase(v: string, c: string)
    requires v != [] && c in ValidClusterTypes && ToLower(v) == ToLower(c)
    ensures NormalizeClusterType(v) == c
  {
    CapitalizeOfLower(v, c);
    assert Capitalize("Primary") == "Primary";
    assert Capitalize("Secondary") == "Secondary";
    assert Capitalize("Single") == "Single";
    if v in ValidClusterTypes {
      assert |v| == |c|;
    }
  }

  /** `port`: `parseInt(v) || v`, a number, or the text when it does not
      read as a non-zero number. */
  datatype Port = Number(n: int) | Raw(text: string)

  function PortOf(v: string): (p: Port)
    ensures p.Raw? ==> p.text == v
    ensures p.Number? <==> ParseIntOr(v, 0) != 0
  {
    var n := ParseIntOr(v, 0);
    if n != 0 then Number(n) else Raw(v)
  }

  // ---------------------------------------------------------------------------
  // Rows
  // ---------------------------------------------------------------------------

  /** The `row` object while the headers are read; "" and None are unset. */
  datatype DbFields = DbFields(name: string, databaseType: string, userName: string, password: string,
                               host: string, port: Option<Port>, clusterType: string)

  const NoFields: DbFields := DbFields("", "", "", "", "", None, "")

  /** One turn of `headers.forEach` with a set value `v`; the type goes
      through the corrected alias lookup. */
  function DbStep(f: DbFields, header: string, v: string): DbFields
    requires v != ""
  {
    if header == "name" then f.(name := v)
    else if header == "databasetype" || header == "database_type" || header == "type" then f.(databaseType := NormalizeDbType(v))
    else if header == "username" || header == "user_name" || header == "user" then f.(userName := v)
    else if header == "password" || header == "pass" then f.(password := v)
    else if header == "host" then f.(host := v)
    else if header == "port" then f.(port := Some(PortOf(v)))
    else if header == "clustertype" || header == "cluster_type" then f.(clusterType := NormalizeClusterType(v))
    else f
  }

  /** The `row` after the first `n` headers; a missing or empty value is
      skipped. */
  function ProjectDb(headers: seq<string>, values: seq<string>, n: nat): DbFields
    requires n <= |headers|
  {
    if n == 0 then NoFields
    else
      var f := ProjectDb(headers, values, n - 1);
      if n - 1 < |values| && values[n - 1] != "" then DbStep(f, headers[n - 1], values[n - 1]) else f
  }

  /** Set types are always valid ones. */
  lemma {:induction false} ProjectDbValid(headers: seq<string>, values: seq<string>, n: nat)
    requires n <= |headers|
    ensures var f := ProjectDb(headers, values, n);
      (f.databaseType == "" || f.databaseType in ValidDbTypes) &&
      (f.clusterType == "" || f.clusterType in ValidClusterTypes)
    decreases n
  {
    if n > 0 {
      ProjectDbValid(headers, values, n - 1);
    }
  }

  /** A row with all seven fields set. */
  datatype DbRow = DbRow(name: string, databaseType: string, userName: string, password: string,
                         host: string, port: Port, clusterType: string)

  /** A data line: ignored under four values; kept when all seven fields are
      set. */
  function DbRowOf(headers: seq<string>, values: seq<string>): Option<DbRow> {
    if |values| < 4 then None
    else
      var f := ProjectDb(headers, values, |headers|);
      if f.name != "" && f.databaseType != "" && f.userName != "" && f.password != "" && f.host != ""
         && f.port.Some? && f.clusterType != ""
      then Some(DbRow(f.name, f.databaseType, f.userName, f.password, f.host, f.port.value, f.clusterType))
      else None
  }

  /** The rows of the data lines, in line order. */
  function DbRowsOf(headers: seq<string>, lines: seq<string>): seq<DbRow>
    decreases |lines|
  {
    if lines == [] then []
    else
      var earlier := DbRowsOf(headers, lines[..|lines| - 1]);
      match DbRowOf(headers, NaiveCells(lines[|lines| - 1]))
      case Some(r) => earlier + [r]
      case None => earlier
  }

  /** The rows the first loop of `parseCSVData` collects in `rowData`. */
  function ParsedDbRows(csv: string): seq<DbRow> {
    var lines := NaiveLines(csv);
    if |lines| < 2 then [] else DbRowsOf(NaiveHeaders(lines[0]), lines[1..])
  }

  predicate ValidRow(r: DbRow) {
    r.name != "" && r.userName != "" && r.password != "" && r.host != ""
    && r.databaseType in ValidDbTypes && r.clusterType in ValidClusterTypes
  }

  /** Every collected row has its fields set and valid types. */
  lemma {:induction false} DbRowsValid(headers: seq<string>, lines: seq<string>)
    ensures forall k :: 0 <= k < |DbRowsOf(headers, lines)| ==> ValidRow(DbRowsOf(headers, lines)[k])
    decreases |lines|
  {
    if lines != [] {
      DbRowsValid(headers, lines[..|lines| - 1]);
      ProjectDbValid(headers, NaiveCells(lines[|lines| - 1]), |headers|);
    }
  }

  lemma ParsedDbRowsValid(csv: string)
    ensures |NaiveLines(csv)| < 2 ==> ParsedDbRows(csv) == []
    ensures forall k :: 0 <= k < |ParsedDbRows(csv)| ==> ValidRow(ParsedDbRows(csv)[k])
  {
    var lines := NaiveLines(csv);
    if |lines| >= 2 {
      DbRowsValid(NaiveHeaders(lines[0]), lines[1..]);
    }
  }

  /** The header loop for one data line. */
  method ProjectDbRow(headers: seq<string>, values: seq<string>) returns (f: DbFields)
    ensures f == ProjectDb(headers, values, |headers|)
  {
    f := NoFields;
    var index := 0;
    while index < |headers|
      invariant 0 <= index <= |headers|
      invariant f == ProjectDb(headers, values, index)
    {
      if index < |values| && values[index] != "" {
        f := DbStep(f, headers[index], values[index]);
      }
      index := index + 1;
    }
  }

  /** One data line: its values projected on the headers, and the row kept
      when all seven fields are set. */
  method ReadDbRow(headers: seq<string>, values: seq<string>) returns (row: Option<DbRow>)
    ensures row == DbRowOf(headers, values)
  {
    if |values| < 4 {
      return None;
    }
    var f := ProjectDbRow(headers, values);
    if f.name != "" && f.databaseType != "" && f.userName != "" && f.password != "" && f.host != ""
       && f.port.Some? && f.clusterType != "" {
      row := Some(DbRow(f.name, f.databaseType, f.userName, f.password, f.host, f.port.value, f.clusterType));
    } else {
      row := None;
    }
  }

  /** The first loop of `parseCSVData`, pushing into `rowData`. */
  method CollectDbRows(csv: string) returns (rowData: seq<DbRow>)
    ensures rowData == ParsedDbRows(csv)
  {
    var lines := NaiveLines(csv);
    if |lines| < 2 {
      return [];
    }
    rowData := CollectRows(NaiveHeaders(lines[0]), lines[1..]);
  }

  /** The loop over the data lines. */
  method CollectRows(headers: seq<string>, data: seq<string>) returns (rowData: seq<DbRow>)
    ensures rowData == DbRowsOf(headers, data)
  {
    rowData := [];
    var i := 0;
    while i < |data|
      invariant 0 <= i <= |data|
      invariant rowData == DbRowsOf(headers, data[..i])
    {
      var row := ReadDbRow(headers, NaiveCells(data[i]));
      assert data[..i + 1][..i] == data[..i];
      if row.Some? {
        rowData := rowData + [row.value];
      }
      i := i + 1;
    }
    assert data[..i] == data;
  }

  // ---------------------------------------------------------------------------
  // Grouping
  // ---------------------------------------------------------------------------

  /** The fields a connection is grouped on. */
  datatype Triple = Triple(name: string, databaseType: string, userName: string)

  /** `{host, port, clusterType}`. */
  datatype Cluster = Cluster(host: string, port: Port, clusterType: string)

  /** A record of `allDatabases`; `message` is `resultMessage`, "" while unset. */
  datatype DbConnection = DbConnection(name: string, databaseType: string, userName: string, password: string,
                                       clusters: seq<Cluster>, result: Outcome, message: string)

  function TripleOf(r: DbRow): Triple {
    Triple(r.name, r.databaseType, r.userName)
  }

  function ConnTriple(c: DbConnection): Triple {
    Triple(c.name, c.databaseType, c.userName)
  }

  function ClusterOf(r: DbRow): Cluster {
    Cluster(r.host, r.port, r.clusterType)
  }

  /** The connection a row opens: its fields, password included, no
      cluster yet and `result: ''`. */
  function Seed(r: DbRow): DbConnection {
    DbConnection(r.name, r.databaseType, r.userName, r.password, [], NoResult, "")
  }

  /** The key as written: `${name}_${databaseType}_${userName}`. */
  function StringKey(t: Triple): string {
    t.name + "_" + t.databaseType + "_" + t.userName
  }

  /** The key the grouping is meant to use: the three fields themselves. */
  function TripleKey(t: Triple): Triple {
    t
  }

  /** `dbMap.has(key)`/`dbMap.get(key)`: the position of the connection with
      that key, or -1. */
  function FindKey<K(==,!new)>(dbs: seq<DbConnection>, k: K, key: Triple -> K): (j: int)
    ensures -1 <= j < |dbs|
    ensures j >= 0 ==> key(ConnTriple(dbs[j])) == k && forall i :: 0 <= i < j ==> key(ConnTriple(dbs[i])) != k
    ensures j == -1 ==> forall i :: 0 <= i < |dbs| ==> key(ConnTriple(dbs[i])) != k
    decreases |dbs|
  {
    if dbs == [] then -1
    else if key(ConnTriple(dbs[|dbs| - 1])) == k && FindKey(dbs[..|dbs| - 1], k, key) == -1 then |dbs| - 1
    else FindKey(dbs[..|dbs| - 1], k, key)
  }

  /** One turn of `rowData.forEach`: a new key opens a connection, then the
      row's cluster is pushed onto the connection of its key. */
  function AddRow<K(==,!new)>(dbs: seq<DbConnection>, r: DbRow, key: Triple -> K): seq<DbConnection> {
    var j := FindKey(dbs, key(TripleOf(r)), key);
    if j < 0 then dbs + [Seed(r).(clusters := [ClusterOf(r)])]
    else dbs[j := dbs[j].(clusters := dbs[j].clusters + [ClusterOf(r)])]
  }

  /** `Array.from(dbMap.values())` after the rows have been added in order. */
  function Group<K(==,!new)>(rows: seq<DbRow>, key: Triple -> K): seq<DbConnection>
    decreases |rows|
  {
    if rows == [] then [] else AddRow(Group(rows[..|rows| - 1], key), rows[|rows| - 1], key)
  }

  // Reference definitions of what the grouping produces.

  /** The distinct keys of the rows, in order of first appearance. */
  function FirstKeys<K(==,!new)>(rows: seq<DbRow>, key: Triple -> K): seq<K>
    decreases |rows|
  {
    if rows == [] then []
    else
      var earlier := FirstKeys(rows[..|rows| - 1], key);
      var k := key(TripleOf(rows[|rows| - 1]));
      if k in earlier then earlier else earlier + [k]
  }

  /** The clusters of the rows with key `k`, in row order. */
  function ClustersWithKey<K(==,!new)>(rows: seq<DbRow>, k: K, key: Triple -> K): seq<Cluster>
    decreases |rows|
  {
    if rows == [] then []
    else
      var earlier := ClustersWithKey(rows[..|rows| - 1], k, key);
      if key(TripleOf(rows[|rows| - 1])) == k then earlier + [ClusterOf(rows[|rows| - 1])] else earlier
  }

  /** The first row with key `k`. */
  function FirstWithKey<K(==,!new)>(rows: seq<DbRow>, k: K, key: Triple -> K): Option<DbRow>
    decreases |rows|
  {
    if rows == [] then None
    else
      var earlier := FirstWithKey(rows[..|rows| - 1], k, key);
      if earlier.None? && key(TripleOf(rows[|rows| - 1])) == k then Some(rows[|rows| - 1]) else earlier
  }

  function Keys<K>(dbs: seq<DbConnection>, key: Triple -> K): (r: seq<K>)
    ensures |r| == |dbs|
    ensures forall j :: 0 <= j < |dbs| ==> r[j] == key(ConnTriple(dbs[j]))
  {
    seq(|dbs|, j requires 0 <= j < |dbs| => key(ConnTriple(dbs[j])))
  }

  /** What the grouping is: one connection per distinct key in order of
      first appearance, seeded from the first row with that key and holding
      the clusters of all rows with that key in row order. */
  ghost predicate Grouped<K(!new)>(rows: seq<DbRow>, dbs: seq<DbConnection>, key: Triple -> K) {
    Keys(dbs, key) == FirstKeys(rows, key) &&
    (forall j :: 0 <= j < |dbs| ==> GroupedAt(rows, dbs[j], key)) &&
    NoStrayRows(rows, key)
  }

  lemma FirstKeysDistinct<K(!new)>(rows: seq<DbRow>, key: Triple -> K)
    ensures var ks := FirstKeys(rows, key); forall i, j :: 0 <= i < j < |ks| ==> ks[i] != ks[j]
  {
    if rows != [] {
      FirstKeysDistinct(rows[..|rows| - 1], key);
    }
  }

  /** The three reference definitions after one more row. */
  lemma GroupStep<K(!new)>(rows: seq<DbRow>, r: DbRow, k: K, key: Triple -> K)
    ensures var rs := rows + [r]; var kr := key(TripleOf(r));
      FirstKeys(rs, key) == (if kr in FirstKeys(rows, key) then FirstKeys(rows, key) else FirstKeys(rows, key) + [kr]) &&
      ClustersWithKey(rs, k, key) == (if kr == k then ClustersWithKey(rows, k, key) + [ClusterOf(r)] else ClustersWithKey(rows, k, key)) &&
      FirstWithKey(rs, k, key) == (if FirstWithKey(rows, k, key).None? && kr == k then Some(r) else FirstWithKey(rows, k, key))
  {
    assert (rows + [r])[..|rows|] == rows;
  }

  /** A key has a connection exactly when it is among the keys. */
  lemma FindKeyIn<K(!new)>(dbs: seq<DbConnection>, k: K, key: Triple -> K)
    ensures FindKey(dbs, k, key) >= 0 <==> k in Keys(dbs, key)
  {
    var j := FindKey(dbs, k, key);
    if k in Keys(dbs, key) {
      var i :| 0 <= i < |dbs| && Keys(dbs, key)[i] == k;
      assert key(ConnTriple(dbs[i])) == k;
    }
    if j >= 0 {
      assert Keys(dbs, key)[j] == k;
    }
  }

  /** What `Grouped` asks of one connection. */
  ghost predicate GroupedAt<K(!new)>(rows: seq<DbRow>, c: DbConnection, key: Triple -> K) {
    var k := key(ConnTriple(c));
    c.clusters == ClustersWithKey(rows, k, key) &&
    FirstWithKey(rows, k, key).Some? &&
    c == Seed(FirstWithKey(rows, k, key).value).(clusters := c.clusters)
  }

  /** Keys without a connection have no row. */
  ghost predicate NoStrayRows<K(!new)>(rows: seq<DbRow>, key: Triple -> K) {
    forall k :: k !in FirstKeys(rows, key) ==> ClustersWithKey(rows, k, key) == [] && FirstWithKey(rows, k, key).None?
  }

  lemma StrayRowsStep<K(!new)>(rows: seq<DbRow>, r: DbRow, key: Triple -> K)
    requires NoStrayRows(rows, key)
    ensures NoStrayRows(rows + [r], key)
  {
    forall k | k !in FirstKeys(rows + [r], key)
      ensures ClustersWithKey(rows + [r], k, key) == [] && FirstWithKey(rows + [r], k, key).None?
    {
      GroupStep(rows, r, k, key);
    }
  }

  /** A row whose key is new opens a connection at the end. */
  lemma AddRowNew<K(!new)>(rows: seq<DbRow>, r: DbRow, dbs: seq<DbConnection>, key: Triple -> K)
    requires Keys(dbs, key) == FirstKeys(rows, key)
    requires forall j :: 0 <= j < |dbs| ==> GroupedAt(rows, dbs[j], key)
    requires NoStrayRows(rows, key)
    requires FindKey(dbs, key(TripleOf(r)), key) < 0
    ensures Keys(AddRow(dbs, r, key), key) == FirstKeys(rows + [r], key)
    ensures forall j :: 0 <= j < |AddRow(dbs, r, key)| ==> GroupedAt(rows + [r], AddRow(dbs, r, key)[j], key)
  {
    var kr := key(TripleOf(r));
    var out := AddRow(dbs, r, key);
    FindKeyIn(dbs, kr, key);
    GroupStep(rows, r, kr, key);
    assert out == dbs + [Seed(r).(clusters := [ClusterOf(r)])];
    assert Keys(out, key) == Keys(dbs, key) + [kr] by {
      forall i | 0 <= i < |out| ensures Keys(out, key)[i] == (Keys(dbs, key) + [kr])[i] {
        if i < |dbs| {
          assert out[i] == dbs[i];
        } else {
          assert ConnTriple(out[i]) == TripleOf(r);
        }
      }
    }
    forall i | 0 <= i < |out| ensures GroupedAt(rows + [r], out[i], key) {
      GroupStep(rows, r, key(ConnTriple(out[i])), key);
      if i < |dbs| {
        assert Keys(dbs, key)[i] == key(ConnTriple(out[i]));
      }
    }
  }

  /** A row whose key has a connection adds its cluster there. */
  lemma AddRowExisting<K(!new)>(rows: seq<DbRow>, r: DbRow, dbs: seq<DbConnection>, key: Triple -> K)
    requires Keys(dbs, key) == FirstKeys(rows, key)
    requires forall j :: 0 <= j < |dbs| ==> GroupedAt(rows, dbs[j], key)
    requires FindKey(dbs, key(TripleOf(r)), key) >= 0
    ensures Keys(AddRow(dbs, r, key), key) == FirstKeys(rows + [r], key)
    ensures forall j :: 0 <= j < |AddRow(dbs, r, key)| ==> GroupedAt(rows + [r], AddRow(dbs, r, key)[j], key)
  {
    var kr := key(TripleOf(r));
    var j := FindKey(dbs, kr, key);
    var out := AddRow(dbs, r, key);
    FindKeyIn(dbs, kr, key);
    GroupStep(rows, r, kr, key);
    assert Keys(out, key) == Keys(dbs, key) by {
      forall i | 0 <= i < |out| ensures Keys(out, key)[i] == Keys(dbs, key)[i] {
        assert ConnTriple(out[i]) == ConnTriple(dbs[i]);
      }
    }
    forall i | 0 <= i < |out| ensures GroupedAt(rows + [r], out[i], key) {
      GroupStep(rows, r, key(ConnTriple(out[i])), key);
      if i != j {
        FirstKeysDistinct(rows, key);
        assert Keys(dbs, key)[i] != Keys(dbs, key)[j];
      }
    }
  }

  /** Adding a row keeps the grouping what it is meant to be. */
  lemma AddRowGrouped<K(!new)>(rows: seq<DbRow>, r: DbRow, dbs: seq<DbConnection>, key: Triple -> K)
    requires Grouped(rows, dbs, key)
    ensures Grouped(rows + [r], AddRow(dbs, r, key), key)
  {
    if FindKey(dbs, key(TripleOf(r)), key) < 0 {
      AddRowNew(rows, r, dbs, key);
    } else {
      AddRowExisting(rows, r, dbs, key);
    }
    StrayRowsStep(rows, r, key);
  }

  /** The grouping is one connection per distinct key in order of first
      appearance, each seeded from the first row with its key and holding
      the clusters of all rows with its key, in row order. */
  lemma {:induction false} GroupIsGrouped<K(!new)>(rows: seq<DbRow>, key: Triple -> K)
    ensures Grouped(rows, Group(rows, key), key)
    decreases |rows|
  {
    if rows != [] {
      var front := rows[..|rows| - 1];
      var last := rows[|rows| - 1];
      assert rows == front + [last];
      assert Group(rows, key) == AddRow(Group(front, key), last, key);
      GroupIsGrouped(front, key);
      AddRowGrouped(front, last, Group(front, key), key);
    }
  }

  /** Which connections a key finds only depends on their keys. */
  lemma FindKeySameKeys<K(!new)>(dbs: seq<DbConnection>, other: seq<DbConnection>, k: K, key: Triple -> K)
    requires Keys(dbs, key) == Keys(other, key)
    ensures FindKey(dbs, k, key) == FindKey(other, k, key)
  {
    var a := FindKey(dbs, k, key);
    var b := FindKey(other, k, key);
    if a >= 0 {
      assert Keys(other, key)[a] == k;
    }
    if b >= 0 {
      assert Keys(dbs, key)[b] == k;
    }
  }

  lemma FindKeyAppend<K(!new)>(dbs: seq<DbConnection>, c: DbConnection, k: K, key: Triple -> K)
    ensures FindKey(dbs + [c], k, key) ==
      if FindKey(dbs, k, key) >= 0 then FindKey(dbs, k, key)
      else if key(ConnTriple(c)) == k then |dbs| else -1
  {
    assert (dbs + [c])[..|dbs|] == dbs;
  }

  /** The keyed index `dbMap` of `GroupRows`: each key it holds points at
      the connection with that key, and a key it lacks has none. */
  ghost predicate Indexes<K(!new)>(index: map<K, nat>, dbs: seq<DbConnection>, key: Triple -> K) {
    forall k :: (k in index ==> index[k] == FindKey(dbs, k, key)) && (k !in index ==> FindKey(dbs, k, key) == -1)
  }

  lemma IndexNew<K(!new)>(index: map<K, nat>, dbs: seq<DbConnection>, r: DbRow, key: Triple -> K)
    requires Indexes(index, dbs, key) && key(TripleOf(r)) !in index
    ensures AddRow(dbs, r, key) == dbs + [Seed(r).(clusters := [ClusterOf(r)])]
    ensures Indexes(index[key(TripleOf(r)) := |dbs|], AddRow(dbs, r, key), key)
  {
    var c := Seed(r).(clusters := [ClusterOf(r)]);
    assert ConnTriple(c) == TripleOf(r);
    forall k {
      FindKeyAppend(dbs, c, k, key);
    }
  }

  lemma IndexOld<K(!new)>(index: map<K, nat>, dbs: seq<DbConnection>, r: DbRow, key: Triple -> K)
    requires Indexes(index, dbs, key) && key(TripleOf(r)) in index
    ensures index[key(TripleOf(r))] < |dbs|
    ensures var j := index[key(TripleOf(r))];
      AddRow(dbs, r, key) == dbs[j := dbs[j].(clusters := dbs[j].clusters + [ClusterOf(r)])]
    ensures Indexes(index, AddRow(dbs, r, key), key)
  {
    var out := AddRow(dbs, r, key);
    assert Keys(out, key) == Keys(dbs, key) by {
      forall i | 0 <= i < |out| ensures Keys(out, key)[i] == Keys(dbs, key)[i] {
        assert ConnTriple(out[i]) == ConnTriple(dbs[i]);
      }
    }
    forall k {
      FindKeySameKeys(out, dbs, k, key);
    }
  }

  lemma GroupPrefix<K(!new)>(rows: seq<DbRow>, i: nat, key: Triple -> K)
    requires i < |rows|
    ensures Group(rows[..i + 1], key) == AddRow(Group(rows[..i], key), rows[i], key)
  {
    assert rows[..i + 1][..i] == rows[..i];
  }

  /** The grouping loop of `parseCSVData`, with `dbMap` as a map from key to
      position. */
  method GroupRows<K(==,!new)>(rows: seq<DbRow>, key: Triple -> K) returns (dbs: seq<DbConnection>)
    ensures dbs == Group(rows, key)
  {
    var dbMap: map<K, nat> := map[];
    dbs := [];
    var i := 0;
    while i < |rows|
      invariant 0 <= i <= |rows|
      invariant dbs == Group(rows[..i], key)
      invariant Indexes(dbMap, dbs, key)
    {
      var row := rows[i];
      var k := key(TripleOf(row));
      GroupPrefix(rows, i, key);
      if k !in dbMap {
        IndexNew(dbMap, dbs, row, key);
        dbMap := dbMap[k := |dbs|];
        dbs := dbs + [Seed(row).(clusters := [ClusterOf(row)])];
      } else {
        IndexOld(dbMap, dbs, row, key);
        var j := dbMap[k];
        dbs := dbs[j := dbs[j].(clusters := dbs[j].clusters + [ClusterOf(row)])];
      }
      i := i + 1;
    }
    assert rows[..i] == rows;
  }

  /** The connections `parseCSVData` is meant to return: the rows grouped on
      the three fields themselves, with `databaseType` looked up among the
      alias table's own keys. These are the corrected key and lookup of the
      two findings; `StringGroupingAgrees` and `AsWrittenAgreesElsewhere`
      state where the code as written gives the same connections. */
  function ImportedDatabases(csv: string): seq<DbConnection> {
    Group(ParsedDbRows(csv), TripleKey)
  }

  /** `parseCSVData`, with the corrected grouping key and alias lookup. */
  method ParseCSVData(csv: string) returns (dbs: seq<DbConnection>)
    ensures dbs == ImportedDatabases(csv)
  {
    var rowData := CollectDbRows(csv);
    dbs := GroupRows(rowData, TripleKey);
  }

  // Totals

  function TotalClusters(dbs: seq<DbConnection>): nat {
    if dbs == [] then 0 else |dbs[0].clusters| + TotalClusters(dbs[1..])
  }

  lemma {:induction false} TotalAppend(dbs: seq<DbConnection>, c: DbConnection)
    ensures TotalClusters(dbs + [c]) == TotalClusters(dbs) + |c.clusters|
    decreases |dbs|
  {
    if dbs != [] {
      assert (dbs + [c])[1..] == dbs[1..] + [c];
      TotalAppend(dbs[1..], c);
    }
  }

  lemma {:induction false} TotalUpdate(dbs: seq<DbConnection>, j: nat, c: DbConnection)
    requires j < |dbs|
    ensures TotalClusters(dbs[j := c]) == TotalClusters(dbs) - |dbs[j].clusters| + |c.clusters|
    decreases j
  {
    if j == 0 {
      assert dbs[j := c][1..] == dbs[1..];
    } else {
      assert dbs[j := c][1..] == dbs[1..][j - 1 := c];
      TotalUpdate(dbs[1..], j - 1, c);
    }
  }

  /** Every row becomes exactly one cluster: no row is lost or doubled. */
  lemma {:induction false} GroupKeepsEveryRow<K(!new)>(rows: seq<DbRow>, key: Triple -> K)
    ensures TotalClusters(Group(rows, key)) == |rows|
    decreases |rows|
  {
    if rows != [] {
      var front := rows[..|rows| - 1];
      var r := rows[|rows| - 1];
      var dbs := Group(front, key);
      GroupKeepsEveryRow(front, key);
      var j := FindKey(dbs, key(TripleOf(r)), key);
      if j < 0 {
        TotalAppend(dbs, Seed(r).(clusters := [ClusterOf(r)]));
      } else {
        TotalUpdate(dbs, j, dbs[j].(clusters := dbs[j].clusters + [ClusterOf(r)]));
      }
    }
  }

  // The grouping key

  /** A cluster of a key comes from a row with that key. */
  lemma {:induction false} ClustersFromRows<K(!new)>(rows: seq<DbRow>, k: K, key: Triple -> K)
    ensures forall c :: c in ClustersWithKey(rows, k, key) ==>
      exists i :: 0 <= i < |rows| && key(TripleOf(rows[i])) == k && c == ClusterOf(rows[i])
    decreases |rows|
  {
    if rows != [] {
      var front := rows[..|rows| - 1];
      ClustersFromRows(front, k, key);
      forall c | c in ClustersWithKey(rows, k, key)
        ensures exists i :: 0 <= i < |rows| && key(TripleOf(rows[i])) == k && c == ClusterOf(rows[i])
      {
        if c in ClustersWithKey(front, k, key) {
          var i :| 0 <= i < |front| && key(TripleOf(front[i])) == k && c == ClusterOf(front[i]);
          assert rows[i] == front[i];
        } else {
          assert c == ClusterOf(rows[|rows| - 1]);
        }
      }
    }
  }

  /** Grouped on the three fields, no two connections share name, type and
      user. */
  lemma TripleGroupingDistinct(rows: seq<DbRow>)
    ensures var dbs := Group(rows, TripleKey);
      forall i, j :: 0 <= i < j < |dbs| ==> ConnTriple(dbs[i]) != ConnTriple(dbs[j])
  {
    var dbs := Group(rows, TripleKey);
    GroupIsGrouped(rows, TripleKey);
    FirstKeysDistinct(rows, TripleKey);
    forall i, j | 0 <= i < j < |dbs| ensures ConnTriple(dbs[i]) != ConnTriple(dbs[j]) {
      assert Keys(dbs, TripleKey)[i] != Keys(dbs, TripleKey)[j];
    }
  }

  /** Grouped on the three fields, every cluster of a connection comes from
      a row of that same name, type and user. */
  lemma TripleGroupingClusters(rows: seq<DbRow>)
    ensures var dbs := Group(rows, TripleKey);
      forall j, c :: 0 <= j < |dbs| && c in dbs[j].clusters ==>
        exists i :: 0 <= i < |rows| && TripleOf(rows[i]) == ConnTriple(dbs[j]) && c == ClusterOf(rows[i])
  {
    var dbs := Group(rows, TripleKey);
    GroupIsGrouped(rows, TripleKey);
    forall j, c | 0 <= j < |dbs| && c in dbs[j].clusters
      ensures exists i :: 0 <= i < |rows| && TripleOf(rows[i]) == ConnTriple(dbs[j]) && c == ClusterOf(rows[i])
    {
      assert GroupedAt(rows, dbs[j], TripleKey);
      ClustersFromRows(rows, ConnTriple(dbs[j]), TripleKey);
    }
  }

  /** Grouped on the three fields, a connection's password is that of the
      first row of that name, type and user. */
  lemma TripleGroupingPassword(rows: seq<DbRow>)
    ensures var dbs := Group(rows, TripleKey);
      forall j :: 0 <= j < |dbs| ==> exists i :: (0 <= i < |rows| && TripleOf(rows[i]) == ConnTriple(dbs[j]) &&
        dbs[j].password == rows[i].password && forall h :: 0 <= h < i ==> TripleOf(rows[h]) != ConnTriple(dbs[j]))
  {
    var dbs := Group(rows, TripleKey);
    GroupIsGrouped(rows, TripleKey);
    forall j | 0 <= j < |dbs|
      ensures exists i :: (0 <= i < |rows| && TripleOf(rows[i]) == ConnTriple(dbs[j]) &&
        dbs[j].password == rows[i].password && forall h :: 0 <= h < i ==> TripleOf(rows[h]) != ConnTriple(dbs[j]))
    {
      assert GroupedAt(rows, dbs[j], TripleKey);
      FirstWithKeyIsFirst(rows, ConnTriple(dbs[j]), TripleKey);
    }
  }

  /** The first row with a key is the row at the lowest position with it. */
  lemma {:induction false} FirstWithKeyIsFirst<K(!new)>(rows: seq<DbRow>, k: K, key: Triple -> K)
    ensures FirstWithKey(rows, k, key).Some? ==> exists i :: (0 <= i < |rows| && rows[i] == FirstWithKey(rows, k, key).value &&
      key(TripleOf(rows[i])) == k && forall h :: 0 <= h < i ==> key(TripleOf(rows[h])) != k)
    ensures FirstWithKey(rows, k, key).None? ==> forall h :: 0 <= h < |rows| ==> key(TripleOf(rows[h])) != k
    decreases |rows|
  {
    if rows != [] {
      var front := rows[..|rows| - 1];
      FirstWithKeyIsFirst(front, k, key);
      if FirstWithKey(front, k, key).Some? {
        var i :| 0 <= i < |front| && front[i] == FirstWithKey(front, k, key).value &&
          key(TripleOf(front[i])) == k && forall h :: 0 <= h < i ==> key(TripleOf(front[h])) != k;
        assert rows[i] == front[i];
      } else if key(TripleOf(rows[|rows| - 1])) == k {
        assert forall h :: 0 <= h < |rows| - 1 ==> rows[h] == front[h];
      } else {
        assert forall h :: 0 <= h < |rows| - 1 ==> rows[h] == front[h];
      }
    }
  }

  /** Two rows whose name, type and user differ but whose joined key is the
      same: the name and user themselves hold '_' and the type. */
  lemma StringKeyCollides()
    ensures Triple("x", "Mysql", "y_Mysql_z") != Triple("x_Mysql_y", "Mysql", "z")
    ensures StringKey(Triple("x", "Mysql", "y_Mysql_z")) == StringKey(Triple("x_Mysql_y", "Mysql", "z"))
  {
    assert "x" != "x_Mysql_y";
  }

  /** As written, two rows of different connections whose joined keys
      coincide are merged into one connection, named after the first row,
      holding both clusters. */
  lemma StringKeyMerges(r1: DbRow, r2: DbRow)
    requires TripleOf(r1) != TripleOf(r2) && StringKey(TripleOf(r1)) == StringKey(TripleOf(r2))
    ensures Group([r1, r2], StringKey) == [Seed(r1).(clusters := [ClusterOf(r1), ClusterOf(r2)])]
  {
    var one := Group([r1], StringKey);
    assert [r1, r2][..1] == [r1];
    assert [r1][..0] == [];
    assert Group([r1][..0], StringKey) == [];
    assert one == AddRow([], r1, StringKey);
    assert FindKey([], StringKey(TripleOf(r1)), StringKey) == -1;
    assert AddRow([], r1, StringKey) == [] + [Seed(r1).(clusters := [ClusterOf(r1)])];
    assert one == [Seed(r1).(clusters := [ClusterOf(r1)])];
    assert FindKey(one, StringKey(TripleOf(r2)), StringKey) == 0 by {
      assert one[..0] == [];
    }
    assert Group([r1, r2], StringKey) == AddRow(one, r2, StringKey);
    assert [ClusterOf(r1)] + [ClusterOf(r2)] == [ClusterOf(r1), ClusterOf(r2)];
  }

  /** Grouped on the three fields, the same two rows stay two connections. */
  lemma TripleKeySeparates(r1: DbRow, r2: DbRow)
    requires TripleOf(r1) != TripleOf(r2)
    ensures Group([r1, r2], TripleKey) ==
      [Seed(r1).(clusters := [ClusterOf(r1)]), Seed(r2).(clusters := [ClusterOf(r2)])]
  {
    var one := Group([r1], TripleKey);
    assert [r1, r2][..1] == [r1];
    assert [r1][..0] == [];
    assert Group([r1][..0], TripleKey) == [];
    assert one == AddRow([], r1, TripleKey);
    assert FindKey([], TripleKey(TripleOf(r1)), TripleKey) == -1;
    assert AddRow([], r1, TripleKey) == [] + [Seed(r1).(clusters := [ClusterOf(r1)])];
    assert one == [Seed(r1).(clusters := [ClusterOf(r1)])];
    assert FindKey(one, TripleKey(TripleOf(r2)), TripleKey) == -1 by {
      assert one[..0] == [];
    }
  }

  // When the joined key is harmless

  /** The name, type and user triples of the rows. */
  function RowTriples(rows: seq<DbRow>): set<Triple> {
    set i | 0 <= i < |rows| :: TripleOf(rows[i])
  }

  /** Every connection of a grouping carries the triple of one of the rows. */
  lemma {:induction false} GroupTriples<K(!new)>(rows: seq<DbRow>, key: Triple -> K)
    ensures forall c :: c in Group(rows, key) ==> ConnTriple(c) in RowTriples(rows)
    decreases |rows|
  {
    if rows != [] {
      var prefix := rows[..|rows| - 1];
      var r := rows[|rows| - 1];
      GroupTriples(prefix, key);
      assert RowTriples(prefix) <= RowTriples(rows) by {
        forall t | t in RowTriples(prefix) ensures t in RowTriples(rows) {
          var i :| 0 <= i < |prefix| && t == TripleOf(prefix[i]);
          assert rows[i] == prefix[i];
        }
      }
      assert TripleOf(rows[|rows| - 1]) in RowTriples(rows);
    }
  }

  /** Two keys that tell the same triples apart find the same connection. */
  lemma {:induction false} FindKeyAgrees<K1(!new), K2(!new)>(dbs: seq<DbConnection>, t: Triple,
                                                           k1: Triple -> K1, k2: Triple -> K2)
    requires forall i :: 0 <= i < |dbs| ==> (k1(ConnTriple(dbs[i])) == k1(t) <==> k2(ConnTriple(dbs[i])) == k2(t))
    ensures FindKey(dbs, k1(t), k1) == FindKey(dbs, k2(t), k2)
    decreases |dbs|
  {
    if dbs != [] {
      FindKeyAgrees(dbs[..|dbs| - 1], t, k1, k2);
    }
  }

  /** Grouping with two keys that tell the rows' triples apart alike gives
      the same connections. */
  lemma {:induction false} GroupAgrees<K1(!new), K2(!new)>(rows: seq<DbRow>, k1: Triple -> K1, k2: Triple -> K2)
    requires forall t, u :: t in RowTriples(rows) && u in RowTriples(rows) ==> (k1(t) == k1(u) <==> k2(t) == k2(u))
    ensures Group(rows, k1) == Group(rows, k2)
    decreases |rows|
  {
    if rows != [] {
      var prefix := rows[..|rows| - 1];
      var r := rows[|rows| - 1];
      assert RowTriples(prefix) <= RowTriples(rows) by {
        forall t | t in RowTriples(prefix) ensures t in RowTriples(rows) {
          var i :| 0 <= i < |prefix| && t == TripleOf(prefix[i]);
          assert rows[i] == prefix[i];
        }
      }
      GroupAgrees(prefix, k1, k2);
      var dbs := Group(prefix, k1);
      GroupTriples(prefix, k1);
      assert TripleOf(r) in RowTriples(rows);
      forall i | 0 <= i < |dbs|
        ensures k1(ConnTriple(dbs[i])) == k1(TripleOf(r)) <==> k2(ConnTriple(dbs[i])) == k2(TripleOf(r))
      {
        assert dbs[i] in dbs;
      }
      FindKeyAgrees(dbs, TripleOf(r), k1, k2);
    }
  }

  /** No valid database type holds '_'. */
  lemma ValidDbTypesPlain(v: string)
    requires v in ValidDbTypes
    ensures '_' !in v
  {
  }

  /** In `a + "_" + x` with no '_' in `a`, the first '_' is at `|a|`. */
  lemma FirstUnderscore(a: string, x: string)
    requires '_' !in a
    ensures (a + "_" + x)[|a|] == '_'
    ensures forall i :: 0 <= i < |a| ==> (a + "_" + x)[i] != '_'
  {
    forall i | 0 <= i < |a| ensures (a + "_" + x)[i] != '_' {
      assert (a + "_" + x)[i] == a[i];
    }
  }

  /** Cutting a joined text at the first '_': texts free of '_' before it
      are determined by the join. */
  lemma SplitAtUnderscore(a: string, x: string, b: string, y: string)
    requires '_' !in a && '_' !in b
    requires a + "_" + x == b + "_" + y
    ensures a == b && x == y
  {
    var s := a + "_" + x;
    FirstUnderscore(a, x);
    FirstUnderscore(b, y);
    assert a == s[..|a|] == b;
    assert x == s[|a| + 1..] == y;
  }

  /** For triples whose name and type hold no '_', the joined key tells them
      apart exactly as the triple does. */
  lemma StringKeyIff(t: Triple, u: Triple)
    requires '_' !in t.name && '_' !in u.name
    requires t.databaseType in ValidDbTypes && u.databaseType in ValidDbTypes
    ensures StringKey(t) == StringKey(u) <==> t == u
  {
    if StringKey(t) == StringKey(u) {
      ValidDbTypesPlain(t.databaseType);
      ValidDbTypesPlain(u.databaseType);
      assert t.name + "_" + (t.databaseType + "_" + t.userName) == StringKey(t);
      assert u.name + "_" + (u.databaseType + "_" + u.userName) == StringKey(u);
      SplitAtUnderscore(t.name, t.databaseType + "_" + t.userName, u.name, u.databaseType + "_" + u.userName);
      SplitAtUnderscore(t.databaseType, t.userName, u.databaseType, u.userName);
    }
  }

  /** The grouping as written, on the joined key, gives exactly the
      connections of the grouping on the triple whenever no row's name holds
      '_': the two differ only on rows such as those of `StringKeyMerges`. */
  lemma StringGroupingAgrees(rows: seq<DbRow>)
    requires forall k :: 0 <= k < |rows| ==> ValidRow(rows[k]) && '_' !in rows[k].name
    ensures Group(rows, StringKey) == Group(rows, TripleKey)
  {
    forall t, u | t in RowTriples(rows) && u in RowTriples(rows)
      ensures StringKey(t) == StringKey(u) <==> TripleKey(t) == TripleKey(u)
    {
      var i :| 0 <= i < |rows| && t == TripleOf(rows[i]);
      var j :| 0 <= j < |rows| && u == TripleOf(rows[j]);
      StringKeyIff(t, u);
    }
    GroupAgrees(rows, StringKey, TripleKey);
  }
}
