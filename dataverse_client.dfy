/** The generic Dataverse Web API client (lib/services/dataverse/dataverseClient.ts).

    Each CRUD call builds a URL, obtains headers that carry the bearer
    token, sends one request and turns the response into a value or an
    error. The network is not modelled: the model says which request an
    operation sends and how a given response is turned into its result. */
module DataverseClient {
  import opened Wrappers
  import Text
  import Json
  import Seqs

  const ApiVersion: string := "v9.2"
  const FormattedValues: string := "odata.include-annotations=\"OData.Community.Display.V1.FormattedValue\""
  const ReturnRepresentation: string := "return=representation"
  const NotAuthenticated: string := "Nicht authentifiziert - bitte zuerst anmelden"

  datatype HttpMethod = GET | POST | PATCH | DELETE

  /** A JSON object sent as a request body. */
  type Body = map<string, Json.Value>

  /** One request as `fetchWithAuth` sends it. */
  datatype Request = Request(verb: HttpMethod, url: string, body: Option<Body>)

  /** The client's two fields, fixed by its constructor. */
  datatype Client = Client(entitySetName: string, baseUrl: string)

  /** `new BaseDataverseClient(entitySetName)`: the API root is the
      configured environment URL followed by `/api/data/v9.2`. */
  function NewClient(entitySetName: string, dataverseUrl: string): (c: Client)
    ensures c.entitySetName == entitySetName
    ensures c.baseUrl == dataverseUrl + "/api/data/" + ApiVersion
  {
    Client(entitySetName, dataverseUrl + "/api/data/" + ApiVersion)
  }

  // ---------------------------------------------------------------- headers

  type Header = (string, string)

  /** The value of the first header called `name`. */
  function HeaderValue(hs: seq<Header>, name: string): Option<string>
  {
    if hs == [] then None else if hs[0].0 == name then Some(hs[0].1) else HeaderValue(hs[1..], name)
  }

  lemma HeaderValueAppend(hs: seq<Header>, h: Header, name: string)
    requires forall i :: 0 <= i < |hs| ==> hs[i].0 != name
    ensures HeaderValue(hs + [h], name) == if h.0 == name then Some(h.1) else None
    decreases |hs|
  {
    if hs == [] {
      assert hs + [h] == [h];
    } else {
      assert (hs + [h])[1..] == hs[1..] + [h];
      HeaderValueAppend(hs[1..], h, name);
    }
  }

  /** `options.method === "POST" || options.method === "PATCH"`. */
  predicate IncludePrefer(m: HttpMethod) {
    m == POST || m == PATCH
  }

  /** A token is usable when it is present and non-empty (`!token` throws). */
  predicate Usable(token: Option<string>) {
    token.Some? && token.value != ""
  }

  /** `getHeaders`: throws without a usable token; otherwise the bearer
      header and a `Prefer` header that always asks for formatted values
      and adds `return=representation` exactly when asked to. */
  method GetHeaders(includePrefer: bool, token: Option<string>) returns (r: Result<seq<Header>>)
    ensures r.Err? <==> !Usable(token)
    ensures r.Err? ==> r.message == NotAuthenticated
    ensures r.Ok? ==> HeaderValue(r.value, "Authorization") == Some("Bearer " + token.value)
    ensures r.Ok? ==>
      HeaderValue(r.value, "Prefer") == Some(if includePrefer then FormattedValues + "," + ReturnRepresentation else FormattedValues)
  {
    if !Usable(token) {
      return Err(NotAuthenticated);
    }
    var headers: seq<Header> := [
      ("Authorization", "Bearer " + token.value),
      ("OData-Version", "4.0"),
      ("OData-MaxVersion", "4.0"),
      ("Accept", "application/json"),
      ("Content-Type", "application/json; charset=utf-8")
    ];
    var preferParts := [FormattedValues];
    if includePrefer {
      preferParts := preferParts + [ReturnRepresentation];
    }
    HeaderValueAppend(headers, ("Prefer", Text.Join(preferParts, ",")), "Prefer");
    headers := headers + [("Prefer", Text.Join(preferParts, ","))];
    return Ok(headers);
  }

  // ---------------------------------------------------------------- query strings

  /** `URLSearchParams.set` on the entry list: the first entry with that
      name takes the new value and later ones are dropped; otherwise the
      entry is appended. */
  function SetEntry(es: seq<Header>, name: string, value: string): (r: seq<Header>)
    ensures HeaderValue(r, name) == Some(value)
    ensures forall n :: n != name ==> HeaderValue(r, n) == HeaderValue(es, n)
    ensures Others(r, name) == Others(es, name)
    decreases |es|
  {
    if es == [] then [(name, value)]
    else if es[0].0 == name then
      OthersIdempotent(es[1..], name);
      OthersKeepValues(es[1..], name);
      [(name, value)] + Others(es[1..], name)
    else [es[0]] + SetEntry(es[1..], name, value)
  }

  /** The entries whose name is not `name`, in their order. */
  function Others(es: seq<Header>, name: string): seq<Header>
    decreases |es|
  {
    if es == [] then [] else if es[0].0 == name then Others(es[1..], name) else [es[0]] + Others(es[1..], name)
  }

  lemma {:induction false} OthersIdempotent(es: seq<Header>, name: string)
    ensures Others(Others(es, name), name) == Others(es, name)
    decreases |es|
  {
    if es != [] {
      OthersIdempotent(es[1..], name);
      if es[0].0 != name {
        assert ([es[0]] + Others(es[1..], name))[1..] == Others(es[1..], name);
      }
    }
  }

  /** Dropping one name leaves every other name's value as it was. */
  lemma {:induction false} OthersKeepValues(es: seq<Header>, name: string)
    ensures forall n :: n != name ==> HeaderValue(Others(es, name), n) == HeaderValue(es, n)
    decreases |es|
  {
    if es != [] {
      OthersKeepValues(es[1..], name);
      if es[0].0 != name {
        assert ([es[0]] + Others(es[1..], name))[1..] == Others(es[1..], name);
      }
    }
  }

  predicate NameAbsent(es: seq<Header>, name: string) {
    forall i :: 0 <= i < |es| ==> es[i].0 != name
  }

  /** Setting a name not yet present appends it. */
  lemma {:induction false} SetEntryFresh(es: seq<Header>, name: string, value: string)
    requires NameAbsent(es, name)
    ensures SetEntry(es, name, value) == es + [(name, value)]
    decreases |es|
  {
    if es != [] {
      SetEntryFresh(es[1..], name, value);
      assert es == [es[0]] + es[1..];
    }
  }

  /** `params.toString()`, without percent-encoding. */
  function Serialize(es: seq<Header>): (r: string)
    ensures es == [] <==> r == ""
    decreases |es|
  {
    if es == [] then ""
    else if |es| == 1 then es[0].0 + "=" + es[0].1
    else es[0].0 + "=" + es[0].1 + "&" + Serialize(es[1..])
  }

  /** The mutable `URLSearchParams` object `list` and `get` fill in. */
  class SearchParams {
    var entries: seq<Header>

    constructor ()
      ensures entries == []
    {
      entries := [];
    }

    method Set(name: string, value: string)
      modifies this
      ensures entries == SetEntry(old(entries), name, value)
    {
      entries := SetEntry(entries, name, value);
    }

    function ToString(): string
      reads this
    {
      Serialize(entries)
    }
  }

  /** The options of `list`: an absent `select` is `[]`, an absent
      `filter`/`orderby` is "", an absent `top` is 0. */
  datatype ListOptions = ListOptions(select: seq<string>, filter: string, top: int, orderby: string)

  function Opt(present: bool, name: string, value: string): (r: seq<Header>)
    ensures present ==> r == [(name, value)]
    ensures !present ==> r == []
  {
    if present then [(name, value)] else []
  }

  /** The query parameters of `list`, in the order they are set: each one
      only when its option is truthy. */
  function ListParams(o: ListOptions): (r: seq<Header>)
    ensures |r| <= 4
    ensures r == [] <==> |o.select| == 0 && o.filter == "" && o.top == 0 && o.orderby == ""
  {
    Opt(|o.select| > 0, "$select", Text.Join(o.select, ","))
    + Opt(o.filter != "", "$filter", o.filter)
    + Opt(o.top != 0, "$top", Text.IntToString(o.top))
    + Opt(o.orderby != "", "$orderby", o.orderby)
  }

  /** The part of a URL after the path: `?query`, or nothing. */
  function QuerySuffix(query: string): (r: string)
    ensures query == "" <==> r == ""
    ensures query != "" ==> r == "?" + query
  {
    if query == "" then "" else "?" + query
  }

  /** The URL addressing one record. */
  function EntityUrl(c: Client, id: string): string {
    c.baseUrl + "/" + c.entitySetName + "(" + id + ")"
  }

  /** The URL addressing the whole table. */
  function CollectionUrl(c: Client): string {
    c.baseUrl + "/" + c.entitySetName
  }

  /** The GET request of `list`. */
  method List(c: Client, o: ListOptions) returns (req: Request)
    ensures req == Request(GET, CollectionUrl(c) + QuerySuffix(Serialize(ListParams(o))), None)
  {
    var params := new SearchParams();
    ghost var a := Opt(|o.select| > 0, "$select", Text.Join(o.select, ","));
    ghost var b := Opt(o.filter != "", "$filter", o.filter);
    ghost var t := Opt(o.top != 0, "$top", Text.IntToString(o.top));
    ghost var d := Opt(o.orderby != "", "$orderby", o.orderby);
    if |o.select| > 0 {
      params.Set("$select", Text.Join(o.select, ","));
    }
    assert params.entries == a;
    if o.filter != "" {
      SetEntryFresh(params.entries, "$filter", o.filter);
      params.Set("$filter", o.filter);
    }
    assert params.entries == a + b;
    if o.top != 0 {
      SetEntryFresh(params.entries, "$top", Text.IntToString(o.top));
      params.Set("$top", Text.IntToString(o.top));
    }
    assert params.entries == a + b + t;
    if o.orderby != "" {
      SetEntryFresh(params.entries, "$orderby", o.orderby);
      params.Set("$orderby", o.orderby);
    }
    assert params.entries == a + b + t + d == ListParams(o);
    var queryString := params.ToString();
    req := Request(GET, CollectionUrl(c) + (if queryString != "" then "?" + queryString else ""), None);
  }

  /** The GET request of `get`. */
  method Get(c: Client, id: string, select: seq<string>) returns (req: Request)
    ensures req == Request(GET, EntityUrl(c, id) + QuerySuffix(Serialize(Opt(|select| > 0, "$select", Text.Join(select, ",")))), None)
  {
    var params := new SearchParams();
    if |select| > 0 {
      params.Set("$select", Text.Join(select, ","));
    }
    var queryString := params.ToString();
    req := Request(GET, EntityUrl(c, id) + (if queryString != "" then "?" + queryString else ""), None);
  }

  /** The POST request of `create`. */
  function Create(c: Client, data: Body): (req: Request)
    ensures req.verb == POST && IncludePrefer(req.verb)
    ensures req.url == CollectionUrl(c) && req.body == Some(data)
  {
    Request(POST, CollectionUrl(c), Some(data))
  }

  /** The PATCH request of `update`. */
  function Update(c: Client, id: string, data: Body): (req: Request)
    ensures req.verb == PATCH && IncludePrefer(req.verb)
    ensures req.url == EntityUrl(c, id) && req.body == Some(data)
  {
    Request(PATCH, EntityUrl(c, id), Some(data))
  }

  /** The DELETE request of `delete`. */
  function Delete(c: Client, id: string): (req: Request)
    ensures req.verb == DELETE && !IncludePrefer(req.verb)
    ensures req.url == EntityUrl(c, id) && req.body == None
  {
    Request(DELETE, EntityUrl(c, id), None)
  }

  // ---------------------------------------------------------------- responses

  /** How an error response's body reads as JSON: `error.message` and
      `message` ("" when absent), or not JSON at all. */
  datatype ErrorBody = ErrorJson(errorMessage: string, message: string) | NotJson

  datatype Response<R> = Response(ok: bool, status: int, text: string, errorBody: ErrorBody, payload: R)

  /** What `fetchWithAuth` resolves or rejects with. */
  datatype Outcome<R> = Threw(message: string) | Returned(value: R) | DeleteSucceeded

  /** The error message for a failed non-DELETE response: `error.message`,
      else `message`, else `HTTP <status>`; a body that is not JSON gives
      its raw text. */
  function ErrorMessage(status: int, body: ErrorBody, text: string): (m: string)
    ensures body.ErrorJson? && body.errorMessage != "" ==> m == body.errorMessage
    ensures body.ErrorJson? && body.errorMessage == "" && body.message != "" ==> m == body.message
    ensures body.ErrorJson? && body.errorMessage == "" && body.message == "" ==> m == "HTTP " + Text.IntToString(status)
    ensures body.NotJson? ==> m == text
  {
    match body
    case ErrorJson(e, msg) => if e != "" then e else if msg != "" then msg else "HTTP " + Text.IntToString(status)
    case NotJson => text
  }

  /** The same selection as the source writes it. After a failed
      `response.json()` the body stream has been consumed, so the
      fallback `response.text()` rejects with a `TypeError` instead of
      yielding the text: the message is then not available (`None`). */
  function ErrorMessageAsWritten(status: int, body: ErrorBody, text: string): (m: Option<string>)
    ensures body.ErrorJson? ==> m == Some(ErrorMessage(status, body, text))
    ensures body.NotJson? ==> m == None
  {
    match body
    case ErrorJson(_, _) => Some(ErrorMessage(status, body, text))
    case NotJson => None
  }

  /** A plain-text error page loses its text in the code as written. */
  lemma AsWrittenLosesErrorText()
    ensures ErrorMessageAsWritten(502, NotJson, "Bad Gateway") == None
    ensures ErrorMessage(502, NotJson, "Bad Gateway") == "Bad Gateway"
  {
  }

  /** `fetchWithAuth` for a request of method `m` with the given token and
      response. */
  function Fetch<R>(m: HttpMethod, token: Option<string>, resp: Response<R>): (r: Outcome<R>)
    ensures !Usable(token) ==> r == Threw(NotAuthenticated)
    ensures Usable(token) && m == DELETE ==>
      r == if resp.ok then DeleteSucceeded else Threw("DELETE fehlgeschlagen: " + resp.text)
    ensures Usable(token) && m != DELETE ==>
      r == if resp.ok then Returned(resp.payload) else Threw(ErrorMessage(resp.status, resp.errorBody, resp.text))
  {
    if !Usable(token) then Threw(NotAuthenticated)
    else if m == DELETE then
      if resp.ok then DeleteSucceeded else Threw("DELETE fehlgeschlagen: " + resp.text)
    else if resp.ok then Returned(resp.payload)
    else Threw(ErrorMessage(resp.status, resp.errorBody, resp.text))
  }

  // ---------------------------------------------------------------- properties

  lemma OptThenValue(p: bool, n: string, v: string, rest: seq<Header>, name: string)
    ensures HeaderValue(Opt(p, n, v) + rest, name) == if p && n == name then Some(v) else HeaderValue(rest, name)
  {
    if p {
      assert (Opt(p, n, v) + rest)[0] == (n, v);
      assert (Opt(p, n, v) + rest)[1..] == rest;
    } else {
      assert Opt(p, n, v) + rest == rest;
    }
  }

  /** Each list parameter is present exactly when its option is truthy;
      in particular `top == 0` is omitted. */
  lemma ListParamsPresence(o: ListOptions, name: string)
    ensures HeaderValue(ListParams(o), name) ==
      if name == "$select" && |o.select| > 0 then Some(Text.Join(o.select, ","))
      else if name == "$filter" && o.filter != "" then Some(o.filter)
      else if name == "$top" && o.top != 0 then Some(Text.IntToString(o.top))
      else if name == "$orderby" && o.orderby != "" then Some(o.orderby)
      else None
  {
    ParamNamesDistinct();
    var a := Opt(|o.select| > 0, "$select", Text.Join(o.select, ","));
    var b := Opt(o.filter != "", "$filter", o.filter);
    var t := Opt(o.top != 0, "$top", Text.IntToString(o.top));
    var d := Opt(o.orderby != "", "$orderby", o.orderby);
    var rest2 := t + d;
    var rest1 := b + rest2;
    assert ListParams(o) == a + rest1;
    OptThenValue(o.orderby != "", "$orderby", o.orderby, [], name);
    assert d + [] == d;
    OptThenValue(o.top != 0, "$top", Text.IntToString(o.top), d, name);
    OptThenValue(o.filter != "", "$filter", o.filter, rest2, name);
    OptThenValue(|o.select| > 0, "$select", Text.Join(o.select, ","), rest1, name);
  }

  lemma ParamNamesDistinct()
    ensures "$select" != "$filter" && "$select" != "$top" && "$select" != "$orderby"
    ensures "$filter" != "$top" && "$filter" != "$orderby" && "$top" != "$orderby"
  {
    assert "$select"[1] != "$filter"[1];
    assert |"$select"| != |"$top"| && |"$select"| != |"$orderby"|;
    assert |"$filter"| != |"$top"| && |"$filter"| != |"$orderby"| && |"$top"| != |"$orderby"|;
  }

  /** `?$filter=<filter>&$orderby=<orderby>`. */
  function FilterAndOrder(filter: string, orderby: string): string {
    "?" + ("$filter" + "=" + filter + "&" + Serialize([("$orderby", orderby)]))
  }

  /** The query of a `list` call with only a filter and an ordering. */
  lemma FilterAndOrderQuery(filter: string, orderby: string)
    requires filter != "" && orderby != ""
    ensures QuerySuffix(Serialize(ListParams(ListOptions([], filter, 0, orderby)))) == FilterAndOrder(filter, orderby)
  {
    var ps := ListParams(ListOptions([], filter, 0, orderby));
    assert ps == [("$filter", filter), ("$orderby", orderby)];
    assert ps[1..] == [("$orderby", orderby)];
    assert Serialize(ps) == "$filter" + "=" + filter + "&" + Serialize([("$orderby", orderby)]);
  }

  /** A `list` URL has a query part exactly when some option is truthy. */
  lemma ListUrlHasQueryIff(c: Client, o: ListOptions)
    ensures QuerySuffix(Serialize(ListParams(o))) == "" <==>
      |o.select| == 0 && o.filter == "" && o.top == 0 && o.orderby == ""
  {
  }

  /** `get` without `select`, `update` and `delete` all address the same
      record URL. */
  lemma RecordUrlsAgree(c: Client, id: string, data: Body)
    ensures EntityUrl(c, id) + QuerySuffix(Serialize(Opt(false, "$select", ""))) == Update(c, id, data).url
    ensures Update(c, id, data).url == Delete(c, id).url
  {
  }

  /** A DELETE never reads the response body, and a non-DELETE success
      returns exactly the parsed body. */
  lemma FetchIgnoresDeleteBody<R>(token: Option<string>, r1: Response<R>, r2: Response<R>)
    requires Usable(token) && r1.ok && r2.ok
    ensures Fetch(DELETE, token, r1) == Fetch(DELETE, token, r2) == DeleteSucceeded
  {
  }
}
