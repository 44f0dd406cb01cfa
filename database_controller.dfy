/** The database handlers of the backend proxy
    (backend/controllers/databaseController.js): forwarding an uploaded file
    or body, creating a DB connection with its clusters, and adding one
    cluster to an existing connection. */
module DatabaseController {
  import opened Text
  import opened ApiProxy

  const DatabasePath: string := "/api/external/v2/database"
  const ConnectionsPath: string := "/api/external/v2/dac/connections"

  /** `uploadDatabase`. */
  function UploadDatabase(body: Body, file: Option<string>, authorization: string, result: Upstream)
    : (h: Handled<UploadData>)
    ensures h.call.None? <==> !Truthy(Field(body, "targetUrl")) || authorization == ""
    ensures h.call.Some? ==>
      h.call.value.url == JsString(Field(body, "targetUrl")) + "/api/external/v2/database" &&
      h.reply == Relayed(result)
  {
    Upload(DatabasePath, body, file, authorization, result)
  }

  // ---------------------------------------------------------------------------
  // Clusters

  /** `{host, port: parseInt(port), type}`; a port that reads as NaN is sent
      as null (None). */
  datatype ClusterSpec = ClusterSpec(host: Json, port: Option<int>, clusterType: Json)

  /** `v[key]` for a value that is not null or undefined: an object's own
      field; a string, number, boolean or array has no `host`, `port` or
      `type` and reads undefined. */
  function Member(v: Json, key: string): Json
    requires !Nullish(v)
  {
    if v.Obj? then Field(v.fields, key) else Undefined
  }

  function ClusterOf(c: Json): ClusterSpec
    requires !Nullish(c)
  {
    ClusterSpec(Member(c, "host"), ParseIntOf(Member(c, "port")), Member(c, "type"))
  }

  /** The outcome of `clusters.map(...)`: the mapped list, or the position
      of the first null or undefined item, on which reading `host` throws a
      TypeError. */
  datatype Mapped = Mapped(specs: seq<ClusterSpec>) | ThrewAt(index: nat)

  function MapClusters(items: seq<Json>): (r: Mapped)
    ensures r.Mapped? <==> forall k :: 0 <= k < |items| ==> !Nullish(items[k])
    ensures r.Mapped? ==>
      |r.specs| == |items| && forall k :: 0 <= k < |items| ==> r.specs[k] == ClusterOf(items[k])
    ensures r.ThrewAt? ==>
      r.index < |items| && Nullish(items[r.index]) && forall j :: 0 <= j < r.index ==> !Nullish(items[j])
  {
    if forall k :: 0 <= k < |items| ==> !Nullish(items[k]) then
      Mapped(seq(|items|, k requires 0 <= k < |items| => ClusterOf(items[k])))
    else
      ThrewAt(FirstNullish(items))
  }

  /** The position of the first null or undefined item. */
  function FirstNullish(items: seq<Json>): (i: nat)
    requires exists k :: 0 <= k < |items| && Nullish(items[k])
    ensures i < |items| && Nullish(items[i]) && forall j :: 0 <= j < i ==> !Nullish(items[j])
  {
    if Nullish(items[0]) then 0
    else
      var k :| 0 <= k < |items| && Nullish(items[k]);
      assert Nullish(items[1..][k - 1]);
      var i := FirstNullish(items[1..]);
      assert forall j :: 1 <= j <= i ==> items[j] == items[1..][j - 1];
      i + 1
  }

  /** The message V8 gives the TypeError of reading `host` of a null or
      undefined item. */
  function ReadHostError(item: Json): string {
    "Cannot read properties of " + JsString(item) + " (reading 'host')"
  }

  // ---------------------------------------------------------------------------
  // Connections

  /** The JSON body of the POST that creates a DB connection. */
  datatype ConnectionRequest = ConnectionRequest(
    name: Json, databaseType: Json, userName: Json, password: Json,
    hideCredential: Json, useProxy: Json, proxyAuthType: Json,
    maxDisplayRows: Json, maxExportRows: Json, useFixedCredentialForAgent: Json,
    clusters: seq<ClusterSpec>, connectionAccount: Json)

  /** The six fields a connection cannot be created without. */
  predicate HasConnectionFields(body: Body) {
    Truthy(Field(body, "name")) && Truthy(Field(body, "databaseType")) && Truthy(Field(body, "userName")) &&
    Truthy(Field(body, "password")) && Truthy(Field(body, "clusters")) && Truthy(Field(body, "connectionAccount"))
  }

  /** `v !== undefined ? v : fallback`. */
  function DefinedOr(v: Json, fallback: Json): Json {
    if v != Undefined then v else fallback
  }

  /** The account sent when `connectionAccount` is falsy. */
  function DefaultAccount(userName: Json, password: Json): Json {
    Obj(map["type" := Str("UIDPWD"), "useMultipleDatabaseAccount" := Bool(false),
            "usernamePasswords" := Obj(map["common" := Obj(map["username" := userName, "password" := password])])])
  }

  /** The request built from the body and the mapped clusters. */
  function ConnectionRequestOf(body: Body, clusters: seq<ClusterSpec>): ConnectionRequest {
    var account := Field(body, "connectionAccount");
    ConnectionRequest(
      Field(body, "name"), Field(body, "databaseType"), Field(body, "userName"), Field(body, "password"),
      DefinedOr(Field(body, "hideCredential"), Bool(false)),
      DefinedOr(Field(body, "useProxy"), Bool(true)),
      if Truthy(Field(body, "proxyAuthType")) then Field(body, "proxyAuthType") else Str("QUERYPIE"),
      DefinedOr(Field(body, "maxDisplayRows"), Num(-1)),
      DefinedOr(Field(body, "maxExportRows"), Num(-1)),
      DefinedOr(Field(body, "useFixedCredentialForAgent"), Bool(false)),
      clusters,
      if Truthy(account) then account else DefaultAccount(Field(body, "userName"), Field(body, "password")))
  }

  /** `createDBConnection`: the target URL and token first, then the six
      required fields; then the clusters are mapped, which throws (500) on
      a null or undefined item; a valid form is sent to the connections
      endpoint and the answer follows the upstream result. A `clusters`
      value that is not an array is sent as no clusters. */
  function CreateDBConnection(body: Body, authorization: string, result: Upstream): (h: Handled<ConnectionRequest>)
    ensures !Truthy(Field(body, "targetUrl")) || authorization == "" ==>
      h == Handled(None, Refused(MissingTargetOrToken))
    ensures Truthy(Field(body, "targetUrl")) && authorization != "" && !HasConnectionFields(body) ==>
      h == Handled(None, Refused(MissingConnectionFields))
    ensures h.reply.Crashed? <==>
      Truthy(Field(body, "targetUrl")) && authorization != "" && HasConnectionFields(body) &&
      Field(body, "clusters").Arr? && MapClusters(Field(body, "clusters").items).ThrewAt?
    ensures h.reply.Crashed? ==>
      h.call.None? && StatusCode(h.reply) == 500 && h.reply.entity == ConnectionEntity &&
      var items := Field(body, "clusters").items;
      h.reply.error == ReadHostError(items[MapClusters(items).index])
    ensures h.call.Some? ==>
      Truthy(Field(body, "targetUrl")) && authorization != "" && HasConnectionFields(body) &&
      h.call.value.url == JsString(Field(body, "targetUrl")) + "/api/external/v2/dac/connections" &&
      h.call.value.authorization == authorization && h.reply == Outcome(ConnectionEntity, result)
    ensures h.call.Some? && Field(body, "clusters").Arr? ==>
      h.call.value.payload == ConnectionRequestOf(body, MapClusters(Field(body, "clusters").items).specs)
    ensures h.call.Some? && !Field(body, "clusters").Arr? ==>
      h.call.value.payload == ConnectionRequestOf(body, [])
  {
    var targetUrl := Field(body, "targetUrl");
    if !Truthy(targetUrl) || authorization == "" then Handled(None, Refused(MissingTargetOrToken))
    else if !HasConnectionFields(body) then Handled(None, Refused(MissingConnectionFields))
    else
      var clusters := Field(body, "clusters");
      var mapped := if clusters.Arr? then MapClusters(clusters.items) else Mapped([]);
      match mapped
      case ThrewAt(k) => Handled(None, Crashed(ConnectionEntity, ReadHostError(clusters.items[k])))
      case Mapped(specs) =>
        Handled(Some(Call(JsString(targetUrl) + ConnectionsPath, ConnectionRequestOf(body, specs), authorization)),
                Outcome(ConnectionEntity, result))
  }

  /** The optional settings take their defaults only when left out: an
      explicit false, 0 or null is sent as it came. `proxyAuthType` instead
      falls back to QUERYPIE whenever it is falsy. */
  lemma UndefinedOnlyDefaults(body: Body, clusters: seq<ClusterSpec>)
    ensures var r := ConnectionRequestOf(body, clusters);
      (Field(body, "hideCredential") == Undefined ==> r.hideCredential == Bool(false)) &&
      (Field(body, "hideCredential") != Undefined ==> r.hideCredential == Field(body, "hideCredential")) &&
      (Field(body, "useProxy") == Undefined ==> r.useProxy == Bool(true)) &&
      (Field(body, "useProxy") != Undefined ==> r.useProxy == Field(body, "useProxy")) &&
      (Field(body, "maxDisplayRows") == Undefined ==> r.maxDisplayRows == Num(-1)) &&
      (Field(body, "maxDisplayRows") != Undefined ==> r.maxDisplayRows == Field(body, "maxDisplayRows")) &&
      (Field(body, "maxExportRows") == Undefined ==> r.maxExportRows == Num(-1)) &&
      (Field(body, "maxExportRows") != Undefined ==> r.maxExportRows == Field(body, "maxExportRows")) &&
      (Field(body, "useFixedCredentialForAgent") == Undefined ==> r.useFixedCredentialForAgent == Bool(false)) &&
      (Field(body, "useFixedCredentialForAgent") != Undefined ==>
        r.useFixedCredentialForAgent == Field(body, "useFixedCredentialForAgent")) &&
      (Truthy(Field(body, "proxyAuthType")) ==> r.proxyAuthType == Field(body, "proxyAuthType")) &&
      (!Truthy(Field(body, "proxyAuthType")) ==> r.proxyAuthType == Str("QUERYPIE")) &&
      r.clusters == clusters
  {
  }

  /** Every request sent carries the caller's own `connectionAccount`: the
      built-in default account is never used, because a falsy account was
      already refused. The clusters sent are the given ones, one for one and
      in order, or none for a non-array. */
  lemma SentConnection(body: Body, authorization: string, result: Upstream)
    ensures var h := CreateDBConnection(body, authorization, result);
      h.call.Some? ==>
        var r := h.call.value.payload;
        r.connectionAccount == Field(body, "connectionAccount") &&
        r.name == Field(body, "name") && r.databaseType == Field(body, "databaseType") &&
        r.userName == Field(body, "userName") && r.password == Field(body, "password") &&
        (Field(body, "clusters").Arr? ==>
          var items := Field(body, "clusters").items;
          |r.clusters| == |items| && forall k :: 0 <= k < |items| ==> !Nullish(items[k]) && r.clusters[k] == ClusterOf(items[k])) &&
        (!Field(body, "clusters").Arr? ==> r.clusters == [])
  {
  }

  // ---------------------------------------------------------------------------
  // A cluster of an existing connection

  /** The JSON body of the POST that adds a cluster. */
  datatype ClusterRequest = ClusterRequest(host: Json, port: Option<int>, clusterType: Json)

  predicate HasClusterFields(body: Body) {
    Truthy(Field(body, "clusterGroupUuid")) && Truthy(Field(body, "host")) &&
    Truthy(Field(body, "port")) && Truthy(Field(body, "type"))
  }

  /** `${targetUrl}/api/external/v2/dac/connections/${clusterGroupUuid}/clusters`. */
  function ClusterUrl(targetUrl: Json, clusterGroupUuid: Json): string {
    JsString(targetUrl) + ConnectionsPath + "/" + JsString(clusterGroupUuid) + "/clusters"
  }

  /** `createCluster`: the target URL and token first, then the group id,
      host, port and type; a valid form is sent to the group's clusters
      endpoint with its port read as a number. */
  function CreateCluster(body: Body, authorization: string, result: Upstream): (h: Handled<ClusterRequest>)
    ensures !Truthy(Field(body, "targetUrl")) || authorization == "" ==>
      h == Handled(None, Refused(MissingTargetOrToken))
    ensures Truthy(Field(body, "targetUrl")) && authorization != "" && !HasClusterFields(body) ==>
      h == Handled(None, Refused(MissingClusterFields))
    ensures h.call.Some? <==> Truthy(Field(body, "targetUrl")) && authorization != "" && HasClusterFields(body)
    ensures h.call.Some? ==>
      h.call.value.url == ClusterUrl(Field(body, "targetUrl"), Field(body, "clusterGroupUuid")) &&
      h.call.value.authorization == authorization &&
      h.call.value.payload == ClusterRequest(Field(body, "host"), ParseIntOf(Field(body, "port")), Field(body, "type")) &&
      h.reply == Outcome(ClusterEntity, result)
  {
    var targetUrl := Field(body, "targetUrl");
    if !Truthy(targetUrl) || authorization == "" then Handled(None, Refused(MissingTargetOrToken))
    else if !HasClusterFields(body) then Handled(None, Refused(MissingClusterFields))
    else
      var request := ClusterRequest(Field(body, "host"), ParseIntOf(Field(body, "port")), Field(body, "type"));
      Handled(Some(Call(ClusterUrl(targetUrl, Field(body, "clusterGroupUuid")), request, authorization)),
              Outcome(ClusterEntity, result))
  }

  /** Two cluster groups of one target are posted to two different URLs. */
  lemma ClusterUrlsDistinct(targetUrl: Json, a: Json, b: Json)
    requires JsString(a) != JsString(b)
    ensures ClusterUrl(targetUrl, a) != ClusterUrl(targetUrl, b)
  {
    var head := JsString(targetUrl) + ConnectionsPath + "/";
    Between(head, JsString(a), "/clusters");
    Between(head, JsString(b), "/clusters");
  }

  /** A cluster URL starts with the target URL and ends with `/clusters`. */
  lemma ClusterUrlShape(targetUrl: Json, uuid: Json)
    ensures var u := ClusterUrl(targetUrl, uuid);
      |u| >= |JsString(targetUrl)| + 9 && u[..|JsString(targetUrl)|] == JsString(targetUrl) && u[|u| - 9..] == "/clusters"
  {
    var t := JsString(targetUrl);
    var middle := ConnectionsPath + "/" + JsString(uuid);
    assert ClusterUrl(targetUrl, uuid) == t + middle + "/clusters";
    Between(t, middle, "/clusters");
  }

  /** The middle of three joined texts is found again between the others. */
  lemma Between(head: string, middle: string, tail: string)
    ensures var u := head + middle + tail;
      u[..|head|] == head && u[|head|..|u| - |tail|] == middle && u[|u| - |tail|..] == tail
  {
  }
}
