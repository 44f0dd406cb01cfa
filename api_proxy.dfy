/** What the three backend controllers (backend/controllers) share: the JSON
    values a request body holds and how JavaScript reads them (truthiness,
    `String(v)`, `parseInt(v)`), the object `ApiClient.callExternalAPI`
    resolves to, and the answers the handlers send. The upstream result is
    a parameter: the POST itself is not modelled. */
module ApiProxy {
  import opened Text

  /** A JSON value as Express hands it over; `Undefined` is a missing key.
      Numbers are integers. */
  datatype Json =
    | Undefined
    | Null
    | Bool(b: bool)
    | Num(n: int)
    | Str(s: string)
    | Arr(items: seq<Json>)
    | Obj(fields: map<string, Json>)

  /** `req.body`. */
  type Body = map<string, Json>

  /** `body[key]`: a missing key reads as undefined. */
  function Field(body: Body, key: string): Json {
    if key in body then body[key] else Undefined
  }

  /** JavaScript truthiness: undefined, null, false, 0 and "" are falsy. */
  predicate Truthy(v: Json) {
    match v
    case Undefined => false
    case Null => false
    case Bool(b) => b
    case Num(n) => n != 0
    case Str(s) => s != ""
    case _ => true
  }

  predicate Nullish(v: Json) {
    v.Undefined? || v.Null?
  }

  /** The decimal rendering of an integer, as `String(n)` gives it. */
  function IntToString(n: int): string {
    if n < 0 then "-" + NatToString(-n) else NatToString(n)
  }

  /** `String(v)`, which is also what a template literal interpolates. An
      array is its items joined by commas, with null and undefined items
      empty. */
  function JsString(v: Json): string
    decreases v
  {
    match v
    case Undefined => "undefined"
    case Null => "null"
    case Bool(b) => if b then "true" else "false"
    case Num(n) => IntToString(n)
    case Str(s) => s
    case Arr(items) =>
      JoinWith(seq(|items|, k requires 0 <= k < |items| => if Nullish(items[k]) then "" else JsString(items[k])), ",")
    case Obj(_) => "[object Object]"
  }

  /** `parseInt(v)`: the value of `String(v)` read as a decimal integer;
      None stands for NaN. */
  function ParseIntOf(v: Json): Option<int> {
    ParseInt(JsString(v))
  }

  /** A number is read back as itself. */
  lemma NumberParses(n: int)
    ensures ParseIntOf(Num(n)) == Some(n)
  {
    assert JsString(Num(n)) == IntToString(n);
    IntToStringParses(n);
  }

  lemma IntToStringParses(n: int)
    ensures ParseInt(IntToString(n)) == Some(n)
  {
    if n < 0 {
      var ds := NatToString(-n);
      var t := "-" + ds;
      assert IntToString(n) == t;
      assert TrimStart(t) == t;
      assert t[1..] == ds;
      DigitRunOfDigits(ds);
      assert ds[..|ds|] == ds;
      NatToStringValue(-n);
    } else {
      NatToStringParses(n);
    }
  }

  /** A text that starts with a lower-case letter, such as `undefined`,
      `null` or `false`, reads as NaN. */
  lemma WordIsNaN(s: string)
    requires |s| > 0 && 'a' <= s[0] <= 'z'
    ensures ParseInt(s) == None
  {
  }

  /** `parseInt(v) || fallback`, the port defaults of the create handlers. */
  function PortOr(v: Json, fallback: int): (r: int)
    ensures fallback != 0 ==> r != 0
    ensures ParseIntOf(v).Some? && ParseIntOf(v).value != 0 ==> r == ParseIntOf(v).value
    ensures ParseIntOf(v).None? || ParseIntOf(v).value == 0 ==> r == fallback
  {
    ParseIntOr(JsString(v), fallback)
  }

  /** An absent value, a zero and a non-zero number, as a port. */
  lemma PortDefaults(n: int, fallback: int)
    ensures PortOr(Undefined, fallback) == fallback
    ensures PortOr(Num(0), fallback) == fallback
    ensures n != 0 ==> PortOr(Num(n), n + 1) == n
  {
    WordIsNaN(JsString(Undefined));
    NumberParses(0);
    NumberParses(n);
  }

  // ---------------------------------------------------------------------------
  // The upstream result

  /** What `ApiClient.callExternalAPI` resolves to. */
  datatype Upstream = Upstream(success: bool, data: Json, status: int, message: Json, error: Json, details: Json)

  /** The two shapes callExternalAPI builds: for a 2xx reply `{success,
      data, status, message}` with the message set; otherwise `{success:
      false, error, message, status, details}` with the error set, the
      message equal to it, and the reply's non-2xx status or 500. */
  predicate FromApiClient(r: Upstream) {
    if r.success then
      200 <= r.status < 300 && Truthy(r.message) && r.error == Undefined && r.details == Undefined
    else
      r.status != 0 && !(200 <= r.status < 300) && Truthy(r.error) && r.message == r.error && r.data == Undefined
  }

  // ---------------------------------------------------------------------------
  // Answers

  /** What a create handler asks the upstream to create; it picks the texts
      of the answer. */
  datatype Entity = ServerEntity | ConnectionEntity | ClusterEntity

  function CreatedText(e: Entity): string {
    match e
    case ServerEntity => "서버가 성공적으로 생성되었습니다."
    case ConnectionEntity => "DB Connection이 성공적으로 생성되었습니다."
    case ClusterEntity => "클러스터가 성공적으로 생성되었습니다."
  }

  function FailedText(e: Entity): string {
    match e
    case ServerEntity => "서버 생성에 실패했습니다."
    case ConnectionEntity => "DB Connection 생성에 실패했습니다."
    case ClusterEntity => "클러스터 생성에 실패했습니다."
  }

  /** The head of the message of a 500, followed by the error's message. */
  function CrashText(e: Entity): string {
    match e
    case ServerEntity => "서버 생성 중 오류가 발생했습니다: "
    case ConnectionEntity => "DB Connection 생성 중 오류가 발생했습니다: "
    case ClusterEntity => "클러스터 생성 중 오류가 발생했습니다: "
  }

  /** Why a handler answered 400. */
  datatype Refusal =
    | MissingUserFields
    | MissingBulkInput
    | NoValidUsers
    | MissingTargetOrToken
    | MissingServerFields
    | MissingConnectionFields
    | MissingClusterFields

  function RefusalText(r: Refusal): string {
    match r
    case MissingUserFields => "모든 필수 필드와 API Token이 필요합니다."
    case MissingBulkInput => "CSV 파일, 대상 URL, API Token이 필요합니다."
    case NoValidUsers => "유효한 사용자 데이터가 없습니다."
    case MissingTargetOrToken => "대상 URL과 API Token이 필요합니다."
    case MissingServerFields => "name, host, sshPort, osType이 모두 필요합니다."
    case MissingConnectionFields => "name, databaseType, userName, password, clusters, connectionAccount가 모두 필요합니다."
    case MissingClusterFields => "clusterGroupUuid, host, port, type이 모두 필요합니다."
  }

  /** The answer of a single-call handler. */
  datatype Reply =
      /** 400 `{success: false, message}`. */
    | Refused(reason: Refusal)
      /** `res.json(result)`: the upstream result as it is, with status 200. */
    | Relayed(result: Upstream)
      /** 200 `{success: true, message, data}`. */
    | Created(entity: Entity, data: Json)
      /** `{success: false, message, details}` with the given status. */
    | NotCreated(entity: Entity, status: int, message: Json, details: Json)
      /** 500 `{success: false, message}`, the message being the entity's
          crash text followed by the error's message. */
    | Crashed(entity: Entity, error: string)

  function StatusCode(r: Reply): int {
    match r
    case Refused(_) => 400
    case Relayed(_) => 200
    case Created(_, _) => 200
    case NotCreated(_, status, _, _) => status
    case Crashed(_, _) => 500
  }

  /** The `success` field of the answer's body. */
  function Succeeded(r: Reply): bool {
    match r
    case Relayed(result) => result.success
    case Created(_, _) => true
    case _ => false
  }

  /** One POST: where to, what, and the Authorization header. */
  datatype Call<P> = Call(url: string, payload: P, authorization: string)

  /** The POST a handler made, if any, and its answer. */
  datatype Handled<P> = Handled(call: Option<Call<P>>, reply: Reply)

  /** How the create handlers answer from the upstream result: the data on
      success; otherwise `result.status || 500` with `result.error || <the
      entity's failure text>` and the details. */
  function Outcome(e: Entity, result: Upstream): (r: Reply)
    ensures r.Created? <==> result.success
    ensures result.success ==> r == Created(e, result.data) && StatusCode(r) == 200
    ensures !result.success ==>
      r.NotCreated? && r.entity == e && StatusCode(r) != 0 && Truthy(r.message) && r.details == result.details &&
      (result.status != 0 ==> r.status == result.status) && (result.status == 0 ==> r.status == 500) &&
      (Truthy(result.error) ==> r.message == result.error) && (!Truthy(result.error) ==> r.message == Str(FailedText(e)))
  {
    if result.success then Created(e, result.data)
    else
      NotCreated(e, if result.status != 0 then result.status else 500,
                 if Truthy(result.error) then result.error else Str(FailedText(e)), result.details)
  }

  /** For a result callExternalAPI built, the fallbacks 500 and the failure
      text are never used: the answer carries the upstream status and error,
      and its status is 2xx exactly when the call succeeded. */
  lemma OutcomeOfApiClient(e: Entity, result: Upstream)
    requires FromApiClient(result)
    ensures var r := Outcome(e, result);
      (200 <= StatusCode(r) < 300 <==> result.success) &&
      (r.NotCreated? ==> r.status == result.status && r.message == result.error)
  {
  }

  // ---------------------------------------------------------------------------
  // Uploads

  /** What an upload handler forwards: the parsed body when no file came,
      otherwise the file's text. */
  datatype UploadData = BodyData(body: Body) | FileData(text: string)

  /** `uploadServer` and `uploadDatabase`, which differ only in the path:
      the target URL and the token are required; the file's text loses one
      leading byte-order mark; the upstream result is relayed as it is. */
  function Upload(path: string, body: Body, file: Option<string>, authorization: string, result: Upstream)
    : (h: Handled<UploadData>)
    ensures h.call.None? <==> !Truthy(Field(body, "targetUrl")) || authorization == ""
    ensures h.call.None? ==> h.reply == Refused(MissingTargetOrToken)
    ensures h.call.Some? ==>
      h.reply == Relayed(result) && StatusCode(h.reply) == 200 &&
      h.call.value.url == JsString(Field(body, "targetUrl")) + path && h.call.value.authorization == authorization &&
      (file.None? ==> h.call.value.payload == BodyData(body)) &&
      (file.Some? ==> h.call.value.payload == FileData(StripBom(file.value)))
  {
    var targetUrl := Field(body, "targetUrl");
    if !Truthy(targetUrl) || authorization == "" then Handled(None, Refused(MissingTargetOrToken))
    else
      var data := if file.Some? then FileData(StripBom(file.value)) else BodyData(body);
      Handled(Some(Call(JsString(targetUrl) + path, data, authorization)), Relayed(result))
  }

  /** A file with a leading byte-order mark is forwarded as the same file
      without it. */
  lemma UploadDropsMark(path: string, body: Body, text: string, authorization: string, result: Upstream)
    requires text == [] || text[0] != BOM
    ensures Upload(path, body, Some([BOM] + text), authorization, result) == Upload(path, body, Some(text), authorization, result)
  {
    assert ([BOM] + text)[1..] == text;
  }
}
