/** The typed service for the table `cr6df_sgsw_digitalisierungsvorhaben`
    (lib/services/dataverse/digitalisierungsvorhabenService.ts): input
    cleaning before create and update, the partial payloads of the
    assessment and status updates, and the OData filters of the two
    queries. Each operation is modelled by the request it sends. */
module DigitalisierungsvorhabenService {
  import opened Wrappers
  import Text
  import Json
  import DataverseClient

  const EntitySetName: string := "cr6df_sgsw_digitalisierungsvorhabens"

  /** The columns that exist in the table; everything else is dropped. */
  const AllowedFields: seq<string> := [
    "cr6df_name",
    "cr6df_beschreibung",
    "cr6df_pia_pfad",
    "cr6df_detailanalyse_ergebnis",
    "cr6df_initalbewertung_begruendung",
    "cr6df_itotboard_begruendung",
    "cr6df_detailanalyse_personentage",
    "cr6df_typ",
    "cr6df_lifecyclestatus",
    "cr6df_komplexitaet",
    "cr6df_kritikalitaet",
    "cr6df_prioritat",
    "cr6df_istduplikat",
    "cr6df_abgelehnt_am",
    "cr6df_abgeschlossen_am",
    "cr6df_genehmigt_am",
    "cr6df_in_ueberarbeitung_am",
    "cr6df_pia_erstellt_am",
    "cr6df_planung_geplanterstart",
    "cr6df_planung_geplantesende"
  ]

  /** An input object as `Object.entries` sees it: a key may be present
      with the value `undefined`. */
  type Input = map<string, Json.Value>

  /** The filter condition of `cleanInput` for one entry. */
  predicate Keep(key: string, value: Json.Value) {
    key in AllowedFields && value != Json.Undefined && value != Json.Str("")
  }

  /** The object `cleanInput` returns. */
  ghost function Cleaned(input: Input): Input {
    map k | k in input && Keep(k, input[k]) :: input[k]
  }

  /** `cleanInput`: walks the entries and copies the allowed ones with a
      value other than `undefined` and "". */
  method CleanInput(input: Input) returns (cleaned: Input)
    ensures cleaned.Keys <= input.Keys
    ensures forall k :: k in cleaned ==> k in AllowedFields && cleaned[k] == input[k]
    ensures forall k :: k in input ==> (k in cleaned <==> Keep(k, input[k]))
  {
    cleaned := map[];
    var pending := input.Keys;
    while pending != {}
      invariant pending <= input.Keys
      invariant cleaned.Keys <= input.Keys - pending
      invariant forall k :: k in cleaned ==> k in AllowedFields && cleaned[k] == input[k]
      invariant forall k :: k in input.Keys - pending ==> (k in cleaned <==> Keep(k, input[k]))
      decreases pending
    {
      var key :| key in pending;
      var value := input[key];
      if key in AllowedFields && value != Json.Undefined && value != Json.Str("") {
        cleaned := cleaned[key := value];
      }
      pending := pending - {key};
    }
  }

  /** The method computes exactly `Cleaned`. */
  lemma CleanInputIsCleaned(input: Input, cleaned: Input)
    requires cleaned.Keys <= input.Keys
    requires forall k :: k in cleaned ==> k in AllowedFields && cleaned[k] == input[k]
    requires forall k :: k in input ==> (k in cleaned <==> Keep(k, input[k]))
    ensures cleaned == Cleaned(input)
  {
  }

  /** Cleaning keeps falsy values other than `undefined` and "", such as
      `0` and `false`, and drops `undefined` and "". */
  lemma CleanedKeepsOtherFalsy(input: Input, k: string)
    requires k in AllowedFields && k in input
    ensures input[k] == Json.Num(0) || input[k] == Json.Bool(false) || input[k] == Json.Null ==> k in Cleaned(input)
    ensures input[k] == Json.Undefined || input[k] == Json.Str("") ==> k !in Cleaned(input)
  {
  }

  /** The result is a sub-map of the input. */
  lemma CleanedIsSubmap(input: Input)
    ensures forall k :: k in Cleaned(input) ==> k in input && Cleaned(input)[k] == input[k]
  {
  }

  /** Cleaning twice is cleaning once. */
  lemma CleanedIdempotent(input: Input)
    ensures Cleaned(Cleaned(input)) == Cleaned(input)
  {
  }

  /** The service's client: the table's entity set under the API root. */
  function ServiceClient(dataverseUrl: string): (c: DataverseClient.Client)
    ensures c.entitySetName == EntitySetName
  {
    DataverseClient.NewClient(EntitySetName, dataverseUrl)
  }

  /** `createRecord`: POST of the cleaned input. */
  method CreateRecord(c: DataverseClient.Client, input: Input) returns (req: DataverseClient.Request)
    ensures req == DataverseClient.Create(c, Cleaned(input))
  {
    var cleaned := CleanInput(input);
    CleanInputIsCleaned(input, cleaned);
    req := DataverseClient.Create(c, cleaned);
  }

  /** `updateRecord`: PATCH of the cleaned input to the record. */
  method UpdateRecord(c: DataverseClient.Client, id: string, input: Input) returns (req: DataverseClient.Request)
    ensures req == DataverseClient.Update(c, id, Cleaned(input))
  {
    var cleaned := CleanInput(input);
    CleanInputIsCleaned(input, cleaned);
    req := DataverseClient.Update(c, id, cleaned);
  }

  /** What create and update send never carries a column outside the
      allow-list, nor an empty or undefined value. */
  lemma SentBodiesAreClean(c: DataverseClient.Client, id: string, input: Input)
    ensures forall k :: k in DataverseClient.Create(c, Cleaned(input)).body.value ==>
      Keep(k, DataverseClient.Create(c, Cleaned(input)).body.value[k])
    ensures forall k :: k in DataverseClient.Update(c, id, Cleaned(input)).body.value ==>
      Keep(k, DataverseClient.Update(c, id, Cleaned(input)).body.value[k])
  {
  }

  /** `updateBewertung`: the payload carries each of the three assessment
      columns exactly when its argument is defined, and is not cleaned. */
  method UpdateBewertung(c: DataverseClient.Client, id: string,
                         komplexitaet: Option<int>, kritikalitaet: Option<int>, begruendung: Option<string>)
    returns (req: DataverseClient.Request)
    ensures req.verb == DataverseClient.PATCH && req.url == DataverseClient.EntityUrl(c, id) && req.body.Some?
    ensures req.body.value.Keys <= {"cr6df_komplexitaet", "cr6df_kritikalitaet", "cr6df_itotboard_begruendung"}
    ensures "cr6df_komplexitaet" in req.body.value <==> komplexitaet.Some?
    ensures komplexitaet.Some? ==> req.body.value["cr6df_komplexitaet"] == Json.Num(komplexitaet.value)
    ensures "cr6df_kritikalitaet" in req.body.value <==> kritikalitaet.Some?
    ensures kritikalitaet.Some? ==> req.body.value["cr6df_kritikalitaet"] == Json.Num(kritikalitaet.value)
    ensures "cr6df_itotboard_begruendung" in req.body.value <==> begruendung.Some?
    ensures begruendung.Some? ==> req.body.value["cr6df_itotboard_begruendung"] == Json.Str(begruendung.value)
  {
    var input: Input := map[];
    if komplexitaet.Some? {
      input := input["cr6df_komplexitaet" := Json.Num(komplexitaet.value)];
    }
    if kritikalitaet.Some? {
      input := input["cr6df_kritikalitaet" := Json.Num(kritikalitaet.value)];
    }
    if begruendung.Some? {
      input := input["cr6df_itotboard_begruendung" := Json.Str(begruendung.value)];
    }
    req := DataverseClient.Update(c, id, input);
  }

  /** `updateStatus`: the payload is exactly the new lifecycle status. */
  function UpdateStatus(c: DataverseClient.Client, id: string, statusCode: int): (req: DataverseClient.Request)
    ensures req.verb == DataverseClient.PATCH && req.url == DataverseClient.EntityUrl(c, id)
    ensures req.body == Some(map["cr6df_lifecyclestatus" := Json.Num(statusCode)])
  {
    DataverseClient.Update(c, id, map["cr6df_lifecyclestatus" := Json.Num(statusCode)])
  }

  const StatusFilterPrefix: string := "cr6df_lifecyclestatus eq "
  const NameFilterPrefix: string := "contains(cr6df_name, '"

  /** The `$filter` of `listByStatus`. */
  function StatusFilter(statusCode: int): (f: string)
    ensures StatusFilterPrefix <= f
  {
    StatusFilterPrefix + Text.IntToString(statusCode)
  }

  /** The `$filter` of `searchByName`: the name goes in verbatim, without
      escaping quotes. */
  function NameFilter(name: string): (f: string)
    ensures |f| == |NameFilterPrefix| + |name| + 2
    ensures f[|NameFilterPrefix|..|NameFilterPrefix| + |name|] == name
  {
    NameFilterPrefix + name + "')"
  }

  /** Different status codes give different filters. */
  lemma StatusFilterInjective(a: int, b: int)
    ensures StatusFilter(a) == StatusFilter(b) ==> a == b
  {
    if StatusFilter(a) == StatusFilter(b) {
      assert StatusFilter(a)[|StatusFilterPrefix|..] == Text.IntToString(a);
      assert StatusFilter(b)[|StatusFilterPrefix|..] == Text.IntToString(b);
      Text.IntToStringInjective(a, b);
    }
  }

  /** Because the name is not escaped, a name containing a quote closes the
      string literal early: the filter then holds more quotes than the two
      of the template. */
  lemma NameFilterUnescaped()
    ensures NameFilter("a') or (x") == "contains(cr6df_name, 'a') or (x')"
  {
  }

  /** `listByStatus`: newest first, filtered on the status code. */
  method ListByStatus(c: DataverseClient.Client, statusCode: int) returns (req: DataverseClient.Request)
    ensures req.verb == DataverseClient.GET && req.body == None
    ensures req.url == DataverseClient.CollectionUrl(c) + DataverseClient.FilterAndOrder(StatusFilter(statusCode), "createdon desc")
  {
    DataverseClient.FilterAndOrderQuery(StatusFilter(statusCode), "createdon desc");
    req := DataverseClient.List(c, DataverseClient.ListOptions([], StatusFilter(statusCode), 0, "createdon desc"));
  }

  /** `searchByName`: alphabetical, filtered on the name substring. */
  method SearchByName(c: DataverseClient.Client, name: string) returns (req: DataverseClient.Request)
    ensures req.verb == DataverseClient.GET && req.body == None
    ensures req.url == DataverseClient.CollectionUrl(c) + DataverseClient.FilterAndOrder(NameFilter(name), "cr6df_name asc")
  {
    DataverseClient.FilterAndOrderQuery(NameFilter(name), "cr6df_name asc");
    req := DataverseClient.List(c, DataverseClient.ListOptions([], NameFilter(name), 0, "cr6df_name asc"));
  }
}
