/** The table check (app/api/dataverse/digitalisierungsvorhaben/setup/route.ts):
    GET asks the metadata endpoint whether the table exists and
    classifies the answer. */
module SetupRoute {
  import opened Wrappers
  import Text

  const EntitySetName: string := "cr6df_sgsw_digitalisierungsvorhabens"
  const LogicalName: string := "cr6df_sgsw_digitalisierungsvorhaben"
  const MissingTable: string := "Tabelle existiert nicht in Dataverse. Bitte zuerst in Power Apps erstellen."
  const NotFoundDefault: string := "Tabelle nicht gefunden"

  /** The metadata request for the table's definition; the base URL is
      not checked here, so an unset one gives a relative URL. */
  function CheckUrl(baseUrl: string): (u: string)
    ensures |u| == |baseUrl| + 48 + |LogicalName|
    ensures u[..|baseUrl|] == baseUrl
    ensures u[|baseUrl| + 46..|baseUrl| + 46 + |LogicalName|] == LogicalName
  {
    baseUrl + "/api/data/v9.2/EntityDefinitions(LogicalName='" + LogicalName + "')"
  }

  /** The metadata endpoint's answer: `fetch` threw; ok with the body's
      `EntitySetName` and display label ("" when absent); or a failure
      status with `error.message` ("" when absent or not JSON). */
  datatype Answer = Threw(reason: string) | Found(entitySetName: string, displayLabel: string) | Failed(status: int, message: string)

  /** The route's reply. */
  datatype SetupReply =
    | Unauthorized(error: string)
    | TableExists(entitySetName: string, logicalName: string, displayName: string)
    | TableMissing(entitySetName: string, error: string)                 // the default status 200
    | CheckFailed(status: int, error: string)

  function Status(r: SetupReply): int {
    match r
    case Unauthorized(_) => 401
    case TableExists(_, _, _) => 200
    case TableMissing(_, _) => 200
    case CheckFailed(s, _) => s
  }

  /** The failure that means the table does not exist. */
  predicate MeansMissing(status: int, message: string) {
    status == 404 || Text.Contains(message, "does not exist") || Text.Contains(message, "0x80060888")
  }

  /** `GET`, given `isAuthenticated()` and `getValidToken()`. */
  function Get(authenticated: bool, token: string, a: Answer): (r: SetupReply)
    ensures !authenticated ==> r == Unauthorized("Nicht authentifiziert")
    ensures authenticated && token == "" ==> r == Unauthorized("Token nicht verfügbar")
    ensures Status(r) == 401 <==> !authenticated || token == "" || (a.Failed? && !MeansMissing(a.status, if a.message != "" then a.message else NotFoundDefault) && a.status == 401)
    ensures authenticated && token != "" && a.Found? ==>
      r == TableExists(if a.entitySetName != "" then a.entitySetName else EntitySetName, LogicalName,
                       if a.displayLabel != "" then a.displayLabel else LogicalName)
    ensures authenticated && token != "" && a.Failed? ==>
      var message := if a.message != "" then a.message else NotFoundDefault;
      r == if MeansMissing(a.status, message) then TableMissing(EntitySetName, MissingTable) else CheckFailed(a.status, message)
    ensures authenticated && token != "" && a.Threw? ==> r == CheckFailed(500, a.reason)
  {
    if !authenticated then Unauthorized("Nicht authentifiziert")
    else if token == "" then Unauthorized("Token nicht verfügbar")
    else match a
      case Threw(reason) => CheckFailed(500, reason)
      case Found(es, shown) =>
        TableExists(if es != "" then es else EntitySetName, LogicalName, if shown != "" then shown else LogicalName)
      case Failed(status, m) =>
        var message := if m != "" then m else NotFoundDefault;
        if MeansMissing(status, message) then TableMissing(EntitySetName, MissingTable) else CheckFailed(status, message)
  }

  /** Whether the reply reports the table. */
  function TableExistsFlag(r: SetupReply): (b: Option<bool>)
    ensures b.None? <==> r.Unauthorized?
  {
    match r
    case Unauthorized(_) => None
    case TableExists(_, _, _) => Some(true)
    case TableMissing(_, _) => Some(false)
    case CheckFailed(_, _) => Some(false)
  }

  /** Only an ok answer reports the table as existing, and a 404 always
      counts as a missing table. */
  lemma ExistsOnlyWhenFound(authenticated: bool, token: string, a: Answer)
    ensures TableExistsFlag(Get(authenticated, token, a)) == Some(true) <==> authenticated && token != "" && a.Found?
    ensures authenticated && token != "" && a.Failed? && a.status == 404 ==> Get(authenticated, token, a) == TableMissing(EntitySetName, MissingTable)
  {
  }

  /** The Dataverse error code for an unknown entity counts as missing at
      any status. */
  lemma ErrorCodeMeansMissing(status: int)
    ensures Get(true, "t", Failed(status, "Error 0x80060888")) == TableMissing(EntitySetName, MissingTable)
  {
    SuffixContained("Error 0x80060888", 6);
    assert "Error 0x80060888"[6..] == "0x80060888";
  }

  /** An unexplained failure keeps its status and gets the default message. */
  lemma UnexplainedFailureKeepsStatus(status: int)
    requires status != 404
    ensures Get(true, "t", Failed(status, "")) == CheckFailed(status, NotFoundDefault)
  {
    DefaultMessageExplainsNothing(status);
  }

  lemma DefaultMessageExplainsNothing(status: int)
    requires status != 404
    ensures !MeansMissing(status, NotFoundDefault)
  {
    DefaultLacksPhrase();
    DefaultLacksCode();
  }

  lemma DefaultLacksPhrase()
    ensures !Text.Contains(NotFoundDefault, "does not exist")
  {
    NoOccurrence(NotFoundDefault, "does not exist", 'o');
  }

  lemma DefaultLacksCode()
    ensures !Text.Contains(NotFoundDefault, "0x80060888")
  {
    NoOccurrence(NotFoundDefault, "0x80060888", 'x');
  }

  /** Every suffix of a string occurs in it. */
  lemma {:induction false} SuffixContained(hay: string, k: nat)
    requires k <= |hay|
    ensures Text.Contains(hay, hay[k..])
    decreases k
  {
    if k > 0 {
      SuffixContained(hay[1..], k - 1);
      assert hay[1..][k - 1..] == hay[k..];
    }
  }

  /** A needle holding a character the haystack lacks does not occur in it. */
  lemma {:induction false} NoOccurrence(hay: string, needle: string, c: char)
    requires c in needle && c !in hay
    ensures !Text.Contains(hay, needle)
    decreases |hay|
  {
    if |hay| > 0 {
      assert forall x :: x in hay[1..] ==> x in hay;
      NoOccurrence(hay[1..], needle, c);
    }
  }
}
