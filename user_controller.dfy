/** The user handlers of the backend proxy
    (backend/controllers/userController.js): registering one user from a
    form, and registering every user of an uploaded CSV file in turn. */
module UserController {
  import opened Text
  import opened ApiProxy
  import CsvParser
  import Submission

  const UsersPath: string := "/api/external/v2/users"

  /** The JSON body of the POST that registers one user: these four fields
      and no other. */
  datatype UserRequest = UserRequest(email: Json, loginId: Json, name: Json, password: Json)

  /** The six values `registerUser` cannot go on without. */
  predicate HasUserFields(body: Body, authorization: string) {
    Truthy(Field(body, "email")) && Truthy(Field(body, "loginId")) && Truthy(Field(body, "name")) &&
    Truthy(Field(body, "password")) && Truthy(Field(body, "targetUrl")) && authorization != ""
  }

  /** `registerUser`: 400 when any of the four user fields, the target URL
      or the token is missing; otherwise the four fields are posted to the
      target's users endpoint and the upstream result is relayed with 200,
      whatever it says. */
  function RegisterUser(body: Body, authorization: string, result: Upstream): (h: Handled<UserRequest>)
    ensures h.call.None? <==> !HasUserFields(body, authorization)
    ensures h.call.None? ==> h.reply == Refused(MissingUserFields) && StatusCode(h.reply) == 400
    ensures h.call.Some? ==>
      h.call.value.url == JsString(Field(body, "targetUrl")) + "/api/external/v2/users" &&
      h.call.value.authorization == authorization &&
      h.call.value.payload ==
        UserRequest(Field(body, "email"), Field(body, "loginId"), Field(body, "name"), Field(body, "password")) &&
      h.reply == Relayed(result) && StatusCode(h.reply) == 200
  {
    if !HasUserFields(body, authorization) then Handled(None, Refused(MissingUserFields))
    else
      var request := UserRequest(Field(body, "email"), Field(body, "loginId"), Field(body, "name"), Field(body, "password"));
      Handled(Some(Call(JsString(Field(body, "targetUrl")) + UsersPath, request, authorization)), Relayed(result))
  }

  // ---------------------------------------------------------------------------
  // Bulk registration

  /** `{user, result}`: a parsed user and what its POST resolved to. */
  datatype Entry = Entry(user: CsvParser.Identity, result: Upstream)

  /** The answer of `registerUsersBulk`: a 400 with its reason, or a 200
      `{success, message, results}`. */
  datatype BulkReply = BulkRefused(reason: Refusal) | Report(success: bool, message: string, results: seq<Entry>)

  function BulkStatus(r: BulkReply): int {
    if r.BulkRefused? then 400 else 200
  }

  /** The POSTs the bulk handler made, in order, and its answer. */
  datatype BulkHandled = BulkHandled(calls: seq<Call<CsvParser.Identity>>, reply: BulkReply)

  /** The users of an uploaded file: the handler removes one leading
      byte-order mark and the reader another. Each user is an e-mail, login
      id and name: the reader keeps no password. */
  function BulkUsers(text: string): seq<CsvParser.Identity> {
    CsvParser.ParsedUsers(StripBom(text))
  }

  /** `r.result.success` of each entry. */
  function Outcomes(results: seq<Entry>): (r: seq<bool>)
    ensures |r| == |results| && forall k :: 0 <= k < |results| ==> r[k] == results[k].result.success
  {
    seq(|results|, k requires 0 <= k < |results| => results[k].result.success)
  }

  /** The `for` loop: each user posted in turn, one entry pushed per
      reply. */
  method PostEach(users: seq<CsvParser.Identity>, url: string, authorization: string, replies: seq<Upstream>)
    returns (calls: seq<Call<CsvParser.Identity>>, results: seq<Entry>)
    requires |users| <= |replies|
    ensures |calls| == |users| && |results| == |users|
    ensures forall k :: 0 <= k < |users| ==>
      calls[k] == Call(url, users[k], authorization) && results[k] == Entry(users[k], replies[k])
  {
    calls := [];
    results := [];
    var i := 0;
    while i < |users|
      invariant 0 <= i <= |users|
      invariant |calls| == i && |results| == i
      invariant forall k :: 0 <= k < i ==>
        calls[k] == Call(url, users[k], authorization) && results[k] == Entry(users[k], replies[k])
    {
      calls := calls + [Call(url, users[i], authorization)];
      results := results + [Entry(users[i], replies[i])];
      i := i + 1;
    }
  }

  /** What the handler answers once `users` were read: one POST and one
      entry per user, in order, and the two counts. */
  predicate Reported(users: seq<CsvParser.Identity>, url: string, authorization: string, replies: seq<Upstream>,
                     h: BulkHandled)
    requires |users| <= |replies|
  {
    h.reply.Report? && |h.calls| == |users| && |h.reply.results| == |users| &&
    (forall k :: 0 <= k < |users| ==>
      h.calls[k] == Call(url, users[k], authorization) && h.reply.results[k] == Entry(users[k], replies[k])) &&
    var s := Submission.SuccessCount(Outcomes(h.reply.results));
    h.reply.success == (|users| - s == 0) && h.reply.message == Submission.TallyMessage(s, |users| - s)
  }

  method PostAndTally(users: seq<CsvParser.Identity>, url: string, authorization: string, replies: seq<Upstream>)
    returns (h: BulkHandled)
    requires |users| <= |replies|
    ensures Reported(users, url, authorization, replies, h)
  {
    var calls, results := PostEach(users, url, authorization, replies);
    var successCount := Submission.SuccessCount(Outcomes(results));
    var failCount := |results| - successCount;
    h := BulkHandled(calls, Report(failCount == 0, Submission.TallyMessage(successCount, failCount), results));
  }

  /** `registerUsersBulk`: 400 without a file, a target URL or a token; the
      file's users are read after removing a byte-order mark, 400 when there
      are none, and otherwise each is posted in turn and the counts are
      reported. `replies[k]` is what the k-th POST resolves to. */
  method RegisterUsersBulk(file: Option<string>, body: Body, authorization: string, replies: seq<Upstream>)
    returns (users: seq<CsvParser.Identity>, h: BulkHandled)
    requires file.Some? ==> |BulkUsers(file.value)| <= |replies|
    ensures file.None? || !Truthy(Field(body, "targetUrl")) || authorization == "" ==>
      users == [] && h == BulkHandled([], BulkRefused(MissingBulkInput))
    ensures file.Some? && Truthy(Field(body, "targetUrl")) && authorization != "" ==>
      users == BulkUsers(file.value) && (users == [] ==> h == BulkHandled([], BulkRefused(NoValidUsers)))
    ensures BulkStatus(h.reply) == 400 <==> users == []
    ensures users != [] ==>
      |users| <= |replies| && Reported(users, JsString(Field(body, "targetUrl")) + "/api/external/v2/users", authorization, replies, h)
  {
    var targetUrl := Field(body, "targetUrl");
    if file.None? || !Truthy(targetUrl) || authorization == "" {
      return [], BulkHandled([], BulkRefused(MissingBulkInput));
    }
    var csvData := file.value;
    if |csvData| > 0 && csvData[0] == BOM {
      csvData := csvData[1..];
    }
    users := CsvParser.ParseCSV(csvData);
    if |users| == 0 {
      return users, BulkHandled([], BulkRefused(NoValidUsers));
    }
    h := PostAndTally(users, JsString(targetUrl) + UsersPath, authorization, replies);
  }

  /** The report says success exactly when every POST succeeded, and the
      success and failure counts add up to the number of entries. */
  lemma BulkVerdict(users: seq<CsvParser.Identity>, url: string, authorization: string, replies: seq<Upstream>,
                    h: BulkHandled)
    requires |users| <= |replies|
    requires Reported(users, url, authorization, replies, h)
    ensures h.reply.success <==> forall k :: 0 <= k < |users| ==> replies[k].success
    ensures var s := Submission.SuccessCount(Outcomes(h.reply.results));
      s <= |h.reply.results| && s + (|users| - s) == |h.reply.results|
  {
    var outcomes := Outcomes(h.reply.results);
    Submission.AllSucceeded(outcomes);
    assert forall k :: 0 <= k < |users| ==> outcomes[k] == replies[k].success;
  }

  /** A file read with one or two leading byte-order marks gives the same
      users as the file without them. */
  lemma BulkReadsThroughMarks(text: string)
    requires text == [] || text[0] != BOM
    ensures BulkUsers([BOM] + text) == BulkUsers(text)
    ensures BulkUsers([BOM, BOM] + text) == BulkUsers(text)
  {
    assert ([BOM] + text)[1..] == text;
    assert ([BOM, BOM] + text)[1..] == [BOM] + text;
  }
}
