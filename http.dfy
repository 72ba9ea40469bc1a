/** The request and response shapes shared by the API routes: the call a
    route makes to the Dataverse Web API, and the JSON reply it returns. */
module Http {
  import opened Wrappers
  import Json

  type Object = map<string, Json.Value>

  /** The outgoing `fetch`, or none. */
  datatype Call = NoCall | Call(verb: string, url: string, headers: seq<(string, string)>, body: Option<Object>)

  /** `NextResponse.json(body, { status })`. */
  datatype Reply = Reply(status: int, body: Object)

  /** What the Web API answers: `fetch` threw, a non-ok status with its
      text, or an ok status with its JSON. */
  datatype Upstream = UpstreamThrew(reason: string) | UpstreamFailed(status: int, text: string) | UpstreamOk(data: Object)

  /** The Web API root under the environment's base URL. */
  function ApiRoot(baseUrl: string): string {
    baseUrl + "/api/data/v9.2/"
  }

  /** An error reply with a message and optional details. */
  function ErrorReply(status: int, message: string, details: Option<string>): (r: Reply)
    ensures r.status == status && "error" in r.body && r.body["error"] == Json.Str(message)
    ensures "details" in r.body <==> details.Some?
  {
    if details.Some? then Reply(status, map["error" := Json.Str(message), "details" := Json.Str(details.value)])
    else Reply(status, map["error" := Json.Str(message)])
  }

  const NotAuthenticated: string := "Nicht authentifiziert"
  const BaseUrlMissing: string := "DATAVERSE_BASE_URL nicht konfiguriert"
  const InternalError: string := "Interner Serverfehler"
}
