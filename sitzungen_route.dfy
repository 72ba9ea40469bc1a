/** The session collection route (app/api/dataverse/sitzungen/route.ts):
    GET lists the sessions from the Web API, POST creates one. The token
    is `getValidToken()`'s result ("" for none) and the base URL is the
    environment's `DATAVERSE_BASE_URL` ("" when unset). */
module SitzungenRoute {
  import opened Wrappers
  import Json
  import Http

  const EntitySet: string := "cr6df_itotboardsitzungs"

  function Headers(accessToken: string, withPrefer: bool): (h: seq<(string, string)>)
    ensures |h| >= 5 && h[0] == ("Authorization", "Bearer " + accessToken)
    ensures ("Prefer", "return=representation") in h <==> withPrefer
  {
    [("Authorization", "Bearer " + accessToken), ("OData-MaxVersion", "4.0"), ("OData-Version", "4.0"),
     ("Accept", "application/json"), ("Content-Type", "application/json")]
    + (if withPrefer then [("Prefer", "return=representation")] else [])
  }

  /** `GET`: the sessions newest first, or the first guard that fails. */
  function Get(accessToken: string, baseUrl: string, upstream: Http.Upstream): (r: (Http.Call, Http.Reply))
    ensures accessToken == "" ==> r == (Http.NoCall, Http.ErrorReply(401, Http.NotAuthenticated, None))
    ensures accessToken != "" && baseUrl == "" ==> r == (Http.NoCall, Http.ErrorReply(500, Http.BaseUrlMissing, None))
    ensures accessToken != "" && baseUrl != "" ==>
      r.0 == Http.Call("GET", Http.ApiRoot(baseUrl) + EntitySet + "?$orderby=cr6df_sitzungsdatum desc", Headers(accessToken, false), None)
    ensures accessToken != "" && baseUrl != "" ==> match upstream
      case UpstreamThrew(e) => r.1 == Http.ErrorReply(500, Http.InternalError, Some(e))
      case UpstreamFailed(s, t) => r.1 == Http.ErrorReply(s, "Fehler beim Abrufen der Sitzungen", Some(t))
      case UpstreamOk(data) => r.1 == Http.Reply(200, data)
  {
    if accessToken == "" then (Http.NoCall, Http.ErrorReply(401, Http.NotAuthenticated, None))
    else if baseUrl == "" then (Http.NoCall, Http.ErrorReply(500, Http.BaseUrlMissing, None))
    else
      var call := Http.Call("GET", Http.ApiRoot(baseUrl) + EntitySet + "?$orderby=cr6df_sitzungsdatum desc",
                            Headers(accessToken, false), None);
      match upstream
      case UpstreamThrew(e) => (call, Http.ErrorReply(500, Http.InternalError, Some(e)))
      case UpstreamFailed(s, t) => (call, Http.ErrorReply(s, "Fehler beim Abrufen der Sitzungen", Some(t)))
      case UpstreamOk(data) => (call, Http.Reply(200, data))
  }

  /** The POST body: unparsable JSON, or its three fields. */
  datatype PostBody = Unparsable(reason: string) | PostBody(sitzungsdatum: Json.Value, protokoll: Json.Value, teilnehmerId: Json.Value)

  const TeilnehmerBind: string := "cr6df_teilnehmer@odata.bind"

  /** `createPayload`: the date, then the optional fields when truthy. */
  function CreatePayload(sitzungsdatum: Json.Value, protokoll: Json.Value, teilnehmerId: Json.Value): (payload: Http.Object)
    ensures payload.Keys == {"cr6df_sitzungsdatum"} + (if Json.Truthy(protokoll) then {"cr6df_protokoll"} else {})
                            + (if Json.Truthy(teilnehmerId) then {TeilnehmerBind} else {})
    ensures payload["cr6df_sitzungsdatum"] == sitzungsdatum
    ensures "cr6df_protokoll" in payload ==> payload["cr6df_protokoll"] == protokoll
    ensures TeilnehmerBind in payload ==>
      payload[TeilnehmerBind] == Json.Str("/cr6df_sgsw_mitarbeitendes(" + Json.ToJsString(teilnehmerId) + ")")
  {
    var dated := map["cr6df_sitzungsdatum" := sitzungsdatum];
    var withProtokoll := if Json.Truthy(protokoll) then dated["cr6df_protokoll" := protokoll] else dated;
    if Json.Truthy(teilnehmerId) then
      withProtokoll[TeilnehmerBind := Json.Str("/cr6df_sgsw_mitarbeitendes(" + Json.ToJsString(teilnehmerId) + ")")]
    else withProtokoll
  }

  /** An empty protocol and a missing participant leave only the date. */
  lemma MinimalPayload(sitzungsdatum: Json.Value)
    ensures CreatePayload(sitzungsdatum, Json.Str(""), Json.Undefined) == map["cr6df_sitzungsdatum" := sitzungsdatum]
  {
  }

  /** `POST`: guards in the order token, base URL, date; then the create
      call, whose failure status is passed on and whose success is 201. */
  method Post(accessToken: string, baseUrl: string, body: PostBody, upstream: Http.Upstream)
    returns (call: Http.Call, reply: Http.Reply)
    ensures accessToken == "" ==> call == Http.NoCall && reply == Http.ErrorReply(401, Http.NotAuthenticated, None)
    ensures accessToken != "" && baseUrl == "" ==> call == Http.NoCall && reply == Http.ErrorReply(500, Http.BaseUrlMissing, None)
    ensures accessToken != "" && baseUrl != "" && body.Unparsable? ==>
      call == Http.NoCall && reply == Http.ErrorReply(500, Http.InternalError, Some(body.reason))
    ensures accessToken != "" && baseUrl != "" && body.PostBody? && !Json.Truthy(body.sitzungsdatum) ==>
      call == Http.NoCall && reply == Http.ErrorReply(400, "Sitzungsdatum ist erforderlich", None)
    ensures call.Call? <==> accessToken != "" && baseUrl != "" && body.PostBody? && Json.Truthy(body.sitzungsdatum)
    ensures call.Call? ==> (
      call.verb == "POST" && call.url == Http.ApiRoot(baseUrl) + EntitySet &&
      call.headers == Headers(accessToken, true) &&
      call.body == Some(CreatePayload(body.sitzungsdatum, body.protokoll, body.teilnehmerId)))
    ensures call.Call? ==> match upstream
      case UpstreamThrew(e) => reply == Http.ErrorReply(500, Http.InternalError, Some(e))
      case UpstreamFailed(s, t) => reply == Http.ErrorReply(s, "Fehler beim Erstellen der Sitzung", Some(t))
      case UpstreamOk(created) => reply == Http.Reply(201, created)
  {
    if accessToken == "" {
      return Http.NoCall, Http.ErrorReply(401, Http.NotAuthenticated, None);
    }
    if baseUrl == "" {
      return Http.NoCall, Http.ErrorReply(500, Http.BaseUrlMissing, None);
    }
    if body.Unparsable? {
      return Http.NoCall, Http.ErrorReply(500, Http.InternalError, Some(body.reason));
    }
    if !Json.Truthy(body.sitzungsdatum) {
      return Http.NoCall, Http.ErrorReply(400, "Sitzungsdatum ist erforderlich", None);
    }
    var payload := CreatePayload(body.sitzungsdatum, body.protokoll, body.teilnehmerId);
    call := Http.Call("POST", Http.ApiRoot(baseUrl) + EntitySet, Headers(accessToken, true), Some(payload));
    match upstream {
      case UpstreamThrew(e) => reply := Http.ErrorReply(500, Http.InternalError, Some(e));
      case UpstreamFailed(s, t) => reply := Http.ErrorReply(s, "Fehler beim Erstellen der Sitzung", Some(t));
      case UpstreamOk(created) => reply := Http.Reply(201, created);
    }
  }

  /** Without a token GET answers 401 whatever the configuration, so the
      missing-token check comes first. */
  lemma TokenCheckedFirst(baseUrl: string, upstream: Http.Upstream)
    ensures Get("", baseUrl, upstream).1.status == 401
    ensures Get("", baseUrl, upstream).0 == Http.NoCall
  {
  }
}
