/** The server handlers of the backend proxy
    (backend/controllers/serverController.js): forwarding an uploaded file
    or body, and creating one server from a form. */
module ServerController {
  import opened Text
  import opened ApiProxy

  const ServersPath: string := "/api/external/v2/sac/servers"

  /** `uploadServer`. */
  function UploadServer(body: Body, file: Option<string>, authorization: string, result: Upstream)
    : (h: Handled<UploadData>)
    ensures h.call.None? <==> !Truthy(Field(body, "targetUrl")) || authorization == ""
    ensures h.call.Some? ==>
      h.call.value.url == JsString(Field(body, "targetUrl")) + "/api/external/v2/sac/servers" &&
      h.reply == Relayed(result)
  {
    Upload(ServersPath, body, file, authorization, result)
  }

  /** The JSON body of the POST that creates a server. `sshPort` is None
      when `parseInt` gives NaN, which JSON sends as null. */
  datatype ServerRequest = ServerRequest(name: Json, host: Json, sshPort: Option<int>, osType: Json,
                                         ftpPort: int, telnetPort: int, vncPort: int)

  /** The four fields a server cannot be created without. */
  predicate HasServerFields(body: Body) {
    Truthy(Field(body, "name")) && Truthy(Field(body, "host")) &&
    Truthy(Field(body, "sshPort")) && Truthy(Field(body, "osType"))
  }

  function ServerRequestOf(body: Body): ServerRequest {
    ServerRequest(Field(body, "name"), Field(body, "host"), ParseIntOf(Field(body, "sshPort")), Field(body, "osType"),
                  PortOr(Field(body, "ftpPort"), 21), PortOr(Field(body, "telnetPort"), 23),
                  PortOr(Field(body, "vncPort"), 5900))
  }

  /** `createServer`: the target URL and token are checked first, then the
      four server fields; a valid form is sent with its ports read as
      numbers, and the answer follows the upstream result. */
  function CreateServer(body: Body, authorization: string, result: Upstream): (h: Handled<ServerRequest>)
    ensures !Truthy(Field(body, "targetUrl")) || authorization == "" ==>
      h == Handled(None, Refused(MissingTargetOrToken))
    ensures Truthy(Field(body, "targetUrl")) && authorization != "" && !HasServerFields(body) ==>
      h == Handled(None, Refused(MissingServerFields))
    ensures h.call.None? ==> StatusCode(h.reply) == 400
    ensures h.call.Some? <==> Truthy(Field(body, "targetUrl")) && authorization != "" && HasServerFields(body)
    ensures h.call.Some? ==>
      h.call.value.url == JsString(Field(body, "targetUrl")) + "/api/external/v2/sac/servers" &&
      h.call.value.authorization == authorization &&
      h.call.value.payload == ServerRequestOf(body) && h.reply == Outcome(ServerEntity, result)
  {
    var targetUrl := Field(body, "targetUrl");
    if !Truthy(targetUrl) || authorization == "" then Handled(None, Refused(MissingTargetOrToken))
    else if !HasServerFields(body) then Handled(None, Refused(MissingServerFields))
    else
      Handled(Some(Call(JsString(targetUrl) + ServersPath, ServerRequestOf(body), authorization)), Outcome(ServerEntity, result))
  }

  /** The name, host and OS type go out as they came, the SSH port as
      `parseInt` reads it, and each other port is the number the form gave
      when that reads as a non-zero one and otherwise its default, 21 for
      FTP, 23 for Telnet and 5900 for VNC; so no port sent is 0. */
  lemma ServerRequestFields(body: Body)
    ensures var r := ServerRequestOf(body);
      r.name == Field(body, "name") && r.host == Field(body, "host") && r.osType == Field(body, "osType") &&
      r.sshPort == ParseIntOf(Field(body, "sshPort")) &&
      r.ftpPort != 0 && r.telnetPort != 0 && r.vncPort != 0 &&
      (!Truthy(Field(body, "ftpPort")) ==> r.ftpPort == 21) &&
      (!Truthy(Field(body, "telnetPort")) ==> r.telnetPort == 23) &&
      (!Truthy(Field(body, "vncPort")) ==> r.vncPort == 5900) &&
      (forall n :: n != 0 && Field(body, "ftpPort") == Num(n) ==> r.ftpPort == n)
  {
    if !Truthy(Field(body, "ftpPort")) {
      FalsyPortDefaults(Field(body, "ftpPort"), 21);
    }
    if !Truthy(Field(body, "telnetPort")) {
      FalsyPortDefaults(Field(body, "telnetPort"), 23);
    }
    if !Truthy(Field(body, "vncPort")) {
      FalsyPortDefaults(Field(body, "vncPort"), 5900);
    }
    forall n | n != 0 && Field(body, "ftpPort") == Num(n) ensures ServerRequestOf(body).ftpPort == n {
      NumberParses(n);
    }
  }

  /** A port left out, empty, null, false or 0 takes the default. */
  lemma FalsyPortDefaults(v: Json, fallback: int)
    requires !Truthy(v)
    ensures PortOr(v, fallback) == fallback
  {
    match v
    case Undefined =>
      WordIsNaN(JsString(v));
    case Null =>
      WordIsNaN(JsString(v));
    case Bool(_) =>
      WordIsNaN(JsString(v));
    case Num(_) =>
      NumberParses(0);
    case Str(s) =>
      assert JsString(v) == "";
  }
}
