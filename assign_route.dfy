/** The assignment route (app/api/dataverse/sitzungen/assign/route.ts):
    PATCH sets or clears the session lookup of one idea. */
module AssignRoute {
  import opened Wrappers
  import Json
  import Http
  import SitzungenPage

  const SessionBind: string := "cr6df_itotBoardSitzung@odata.bind"

  datatype PatchBody = Unparsable(reason: string) | PatchBody(ideaId: Json.Value, sitzungId: Json.Value)

  /** `updatePayload`: the one lookup key, bound to the session or null. */
  method UpdatePayload(sitzungId: Json.Value) returns (payload: Http.Object)
    ensures payload.Keys == {SessionBind}
    ensures Json.Truthy(sitzungId) ==> payload[SessionBind] == Json.Str("/cr6df_itotboardsitzungs(" + Json.ToJsString(sitzungId) + ")")
    ensures !Json.Truthy(sitzungId) ==> payload[SessionBind] == Json.Null
  {
    payload := map[];
    if Json.Truthy(sitzungId) {
      payload := payload[SessionBind := Json.Str("/cr6df_itotboardsitzungs(" + Json.ToJsString(sitzungId) + ")")];
    } else {
      payload := payload[SessionBind := Json.Null];
    }
  }

  function Headers(accessToken: string): (h: seq<(string, string)>)
    ensures ("If-Match", "*") in h && h[0] == ("Authorization", "Bearer " + accessToken)
  {
    [("Authorization", "Bearer " + accessToken), ("OData-MaxVersion", "4.0"), ("OData-Version", "4.0"),
     ("Accept", "application/json"), ("Content-Type", "application/json"), ("If-Match", "*")]
  }

  /** `PATCH`: guards in the order token, base URL, idea id; then the
      update of the idea, whose failure status is passed on. */
  method Patch(accessToken: string, baseUrl: string, body: PatchBody, upstream: Http.Upstream)
    returns (call: Http.Call, reply: Http.Reply)
    ensures accessToken == "" ==> call == Http.NoCall && reply == Http.ErrorReply(401, Http.NotAuthenticated, None)
    ensures accessToken != "" && baseUrl == "" ==> call == Http.NoCall && reply == Http.ErrorReply(500, Http.BaseUrlMissing, None)
    ensures accessToken != "" && baseUrl != "" && body.Unparsable? ==>
      call == Http.NoCall && reply == Http.ErrorReply(500, Http.InternalError, Some(body.reason))
    ensures accessToken != "" && baseUrl != "" && body.PatchBody? && !Json.Truthy(body.ideaId) ==>
      call == Http.NoCall && reply == Http.ErrorReply(400, "ideaId ist erforderlich", None)
    ensures call.Call? <==> accessToken != "" && baseUrl != "" && body.PatchBody? && Json.Truthy(body.ideaId)
    ensures call.Call? ==> (
      call.verb == "PATCH" && call.headers == Headers(accessToken) &&
      call.url == Http.ApiRoot(baseUrl) + "cr6df_sgsw_digitalisierungsvorhabens(" + Json.ToJsString(body.ideaId) + ")" &&
      call.body.Some? && call.body.value.Keys == {SessionBind} &&
      (Json.Truthy(body.sitzungId) ==> call.body.value[SessionBind] == Json.Str("/cr6df_itotboardsitzungs(" + Json.ToJsString(body.sitzungId) + ")")) &&
      (!Json.Truthy(body.sitzungId) ==> call.body.value[SessionBind] == Json.Null))
    ensures call.Call? ==> match upstream
      case UpstreamThrew(e) => reply == Http.ErrorReply(500, Http.InternalError, Some(e))
      case UpstreamFailed(s, t) => reply == Http.ErrorReply(s, "Fehler beim Zuweisen der Idee", Some(t))
      case UpstreamOk(_) => reply == Http.Reply(200, map["success" := Json.Bool(true)])
  {
    if accessToken == "" {
      return Http.NoCall, Http.ErrorReply(401, Http.NotAuthenticated, None);
    }
    if baseUrl == "" {
      return Http.NoCall, Http.ErrorReply(500, Http.BaseUrlMissing, None);
    }
    if body.Unparsable? {
      return Http.NoCall, Http.ErrorReply(500, Http.InternalError, Some(body.reason));
    }
    if !Json.Truthy(body.ideaId) {
      return Http.NoCall, Http.ErrorReply(400, "ideaId ist erforderlich", None);
    }
    var payload := UpdatePayload(body.sitzungId);
    call := Http.Call("PATCH", Http.ApiRoot(baseUrl) + "cr6df_sgsw_digitalisierungsvorhabens(" + Json.ToJsString(body.ideaId) + ")",
                      Headers(accessToken), Some(payload));
    match upstream {
      case UpstreamThrew(e) => reply := Http.ErrorReply(500, Http.InternalError, Some(e));
      case UpstreamFailed(s, t) => reply := Http.ErrorReply(s, "Fehler beim Zuweisen der Idee", Some(t));
      case UpstreamOk(_) => reply := Http.Reply(200, map["success" := Json.Bool(true)]);
    }
  }

  /** The JSON body the sessions page sends for one of its requests:
      `JSON.stringify` drops an undefined session id. */
  function BodyOf(r: SitzungenPage.AssignRequest): (b: PatchBody)
    ensures b.PatchBody? && b.ideaId == Json.Str(r.ideaId)
    ensures r.sitzungId.Some? ==> b.sitzungId == Json.Str(r.sitzungId.value)
    ensures r.sitzungId.None? ==> b.sitzungId == Json.Undefined
  {
    PatchBody(Json.Str(r.ideaId), if r.sitzungId.Some? then Json.Str(r.sitzungId.value) else Json.Undefined)
  }

  /** A page request for a session with an id binds the idea to that
      session; one for a session without an id clears the idea's
      assignment instead. */
  lemma PageRequestBindsSession(r: SitzungenPage.AssignRequest)
    ensures r.sitzungId.Some? && r.sitzungId.value != "" ==>
      Json.Truthy(BodyOf(r).sitzungId) &&
      "/cr6df_itotboardsitzungs(" + Json.ToJsString(BodyOf(r).sitzungId) + ")" == "/cr6df_itotboardsitzungs(" + r.sitzungId.value + ")"
    ensures r.sitzungId.None? ==> !Json.Truthy(BodyOf(r).sitzungId)
    ensures r.ideaId != "" ==> Json.Truthy(BodyOf(r).ideaId)
  {
  }
}
