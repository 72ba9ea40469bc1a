/** The placeholder data layer of lib/dataverse.ts: when the Dataverse
    environment variables are incomplete it serves a constant list of four
    mock ideas; otherwise every call is a stub. */
module MockDataverse {
  import opened Wrappers
  import Seqs
  import Json
  import Validators

  /** `config`, read from the environment; an unset variable is "". */
  datatype Config = Config(url: string, clientId: string, clientSecret: string, tenantId: string, tableName: string)

  /** The configuration as built from the environment: `tableName`
      defaults to "cr_ideen". */
  function ConfigFromEnv(url: string, clientId: string, clientSecret: string, tenantId: string, tableName: string): (c: Config)
    ensures tableName != "" ==> c.tableName == tableName
    ensures tableName == "" ==> c.tableName == "cr_ideen"
  {
    Config(url, clientId, clientSecret, tenantId, if tableName != "" then tableName else "cr_ideen")
  }

  /** `isDataverseConfigured`. */
  predicate IsConfigured(c: Config)
    ensures IsConfigured(c) <==> "" !in [c.url, c.clientId, c.clientSecret, c.tenantId]
  {
    c.url != "" && c.clientId != "" && c.clientSecret != "" && c.tenantId != ""
  }

  /** The table name is not part of the check. */
  lemma ConfiguredIgnoresTableName(c: Config, t: string)
    ensures IsConfigured(c) <==> IsConfigured(c.(tableName := t))
    ensures IsConfigured(c) <==> c.url != "" && c.clientId != "" && c.clientSecret != "" && c.tenantId != ""
  {
  }

  datatype Idee = Idee(
    id: string, titel: string, beschreibung: string, typ: string,
    verantwortlicher: string, ideengeber: string,
    detailanalyseErgebnis: Option<string>, detailanalysePersonentage: Option<int>,
    detailanalyseNutzen: Option<string>,
    komplexitaet: Option<string>, kritikalitaet: Option<string>, itotBoardBegruendung: Option<string>,
    lifecyclestatus: string)

  datatype ListItem = ListItem(id: string, titel: string, typ: string, verantwortlicher: string,
                               ideengeber: string, lifecyclestatus: string)

  const Presented: string := "Idee wird ITOT-Board vorgestellt"

  /** The four entries of `mockIdeen`. */
  const Idee1: Idee :=
    Idee("1", "Automatisierte Rechnungsverarbeitung",
    "Eingehende Rechnungen sollen automatisch erfasst, kategorisiert und zur Freigabe weitergeleitet werden.",
    "Prozessoptimierung", "Max Müller", "Anna Schmidt",
    Some("Machbar mit OCR-Technologie und Workflow-Automatisierung"), Some(45),
    Some("Zeitersparnis von ca. 20 Stunden pro Woche"), None, None, None, Presented)

  const Idee2: Idee :=
    Idee("2", "Kunden-Self-Service Portal",
    "Kunden sollen ihre Bestellungen, Rechnungen und Support-Tickets selbst online verwalten können.",
    "Digitalisierung", "Lisa Weber", "Thomas Huber",
    Some("Technisch umsetzbar, Integration mit ERP erforderlich"), Some(120),
    Some("Reduktion der Support-Anfragen um 30%"), None, None, None, Presented)

  const Idee3: Idee :=
    Idee("3", "Mobile Zeiterfassung",
    "Mitarbeiter im Aussendienst sollen ihre Arbeitszeiten per Smartphone-App erfassen können.",
    "Mobile App", "Peter Keller", "Sandra Meier",
    Some("Standard-App verfügbar, Anpassungen nötig"), Some(25),
    Some("Echtzeit-Übersicht, weniger Papierkram"), Some("mittel"), Some("gering"),
    Some("Gute Idee, aber nicht geschäftskritisch. Kann in Q3 umgesetzt werden."),
    "ITOT-Board Bewertung abgeschlossen")

  const Idee4: Idee :=
    Idee("4", "KI-gestützte Angebotserstellung",
    "Angebote sollen basierend auf historischen Daten und Kundenanforderungen automatisch erstellt werden.",
    "KI/ML", "Julia Brunner", "Marco Frei",
    None, None, None, None, None, None, Presented)

  /** `mockIdeen`. */
  const MockIdeen: seq<Idee> := [Idee1, Idee2, Idee3, Idee4]

  /** The six-field projection used by both list functions. */
  function Project(i: Idee): (r: ListItem)
    ensures r.id == i.id && r.titel == i.titel && r.typ == i.typ
    ensures r.verantwortlicher == i.verantwortlicher && r.ideengeber == i.ideengeber
    ensures r.lifecyclestatus == i.lifecyclestatus
  {
    ListItem(i.id, i.titel, i.typ, i.verantwortlicher, i.ideengeber, i.lifecyclestatus)
  }

  function ProjectAll(xs: seq<Idee>): (r: seq<ListItem>)
    ensures |r| == |xs|
    ensures forall k :: 0 <= k < |xs| ==> r[k] == Project(xs[k])
  {
    seq(|xs|, k requires 0 <= k < |xs| => Project(xs[k]))
  }

  /** `getIdeenZurBewertung`. */
  function IdeenZurBewertung(c: Config): (r: seq<ListItem>)
    ensures IsConfigured(c) ==> r == []
    ensures forall k :: 0 <= k < |r| ==> r[k].lifecyclestatus == Presented
  {
    if IsConfigured(c) then []
    else ProjectAll(Seqs.Filter(MockIdeen, (i: Idee) => i.lifecyclestatus == Presented))
  }

  /** `getAlleIdeen`. */
  function AlleIdeen(c: Config): (r: seq<ListItem>)
    ensures IsConfigured(c) ==> r == []
    ensures !IsConfigured(c) ==> |r| == |MockIdeen| && forall k :: 0 <= k < |r| ==> r[k] == Project(MockIdeen[k])
  {
    if IsConfigured(c) then [] else ProjectAll(MockIdeen)
  }

  /** The first idea with the given id (`Array.find`). */
  function Find(xs: seq<Idee>, id: string): (r: Option<Idee>)
    ensures r.Some? ==> r.value in xs && r.value.id == id
    ensures r.None? ==> forall k :: 0 <= k < |xs| ==> xs[k].id != id
    ensures r.Some? ==> exists k :: 0 <= k < |xs| && xs[k] == r.value && forall j :: 0 <= j < k ==> xs[j].id != id
  {
    if xs == [] then None else if xs[0].id == id then Some(xs[0]) else Find(xs[1..], id)
  }

  /** `getIdeeById`. */
  function IdeeById(c: Config, id: string): (r: Option<Idee>)
    ensures IsConfigured(c) ==> r.None?
    ensures !IsConfigured(c) ==> r == Find(MockIdeen, id)
  {
    if IsConfigured(c) then None else Find(MockIdeen, id)
  }

  /** `{ success, error? }`. */
  datatype UpdateResult = UpdateResult(success: bool, error: Option<string>)

  /** `updateITOTBewertung` and `updateLifecycleStatus` share this logic:
      mock mode only checks that the idea exists; nothing is written. */
  function MockUpdate(c: Config, id: string): (r: UpdateResult)
    ensures IsConfigured(c) ==> r == UpdateResult(false, Some("Dataverse nicht konfiguriert"))
    ensures !IsConfigured(c) ==> (r.success <==> Find(MockIdeen, id).Some?)
    ensures !IsConfigured(c) && !r.success ==> r.error == Some("Idee nicht gefunden")
    ensures r.success ==> r.error.None?
  {
    if IsConfigured(c) then UpdateResult(false, Some("Dataverse nicht konfiguriert"))
    else if Find(MockIdeen, id).None? then UpdateResult(false, Some("Idee nicht gefunden"))
    else UpdateResult(true, None)
  }

  /** `updateITOTBewertung`: the assessment is only logged. */
  function UpdateITOTBewertung(c: Config, id: string, komplexitaet: string, kritikalitaet: string, begruendung: string): (r: UpdateResult)
    ensures r == MockUpdate(c, id)
  {
    MockUpdate(c, id)
  }

  /** `updateLifecycleStatus`: the new status is only logged. */
  function UpdateLifecycleStatus(c: Config, id: string, neuerStatus: string): (r: UpdateResult)
    ensures r == MockUpdate(c, id)
  {
    MockUpdate(c, id)
  }

  // ---------------------------------------------------------------- properties

  lemma FilterPresented()
    ensures Seqs.Filter(MockIdeen, (i: Idee) => i.lifecyclestatus == Presented) == [Idee1, Idee2, Idee4]
  {
    var p := (i: Idee) => i.lifecyclestatus == Presented;
    assert MockIdeen[1..] == [Idee2, Idee3, Idee4];
    assert MockIdeen[1..][1..] == [Idee3, Idee4];
    assert MockIdeen[1..][1..][1..] == [Idee4];
    assert Seqs.Filter([Idee4], p) == [Idee4] by {
      assert [Idee4][1..] == [];
    }
    assert Seqs.Filter([Idee3, Idee4], p) == [Idee4];
    assert Seqs.Filter([Idee2, Idee3, Idee4], p) == [Idee2, Idee4];
  }

  /** In mock mode the ideas up for assessment are 1, 2 and 4, in order. */
  lemma ZurBewertungIsPresentedIdeas(c: Config)
    requires !IsConfigured(c)
    ensures IdeenZurBewertung(c) == [Project(Idee1), Project(Idee2), Project(Idee4)]
  {
    FilterPresented();
  }

  /** Every idea up for assessment is also in the full list, in the same
      relative order. */
  lemma ZurBewertungWithinAlle(c: Config)
    requires !IsConfigured(c)
    ensures Seqs.IsSubsequence(IdeenZurBewertung(c), AlleIdeen(c))
  {
    ZurBewertungIsPresentedIdeas(c);
    var a := AlleIdeen(c);
    assert a == [Project(Idee1), Project(Idee2), Project(Idee3), Project(Idee4)];
    var z := [Project(Idee1), Project(Idee2), Project(Idee4)];
    assert a[1..][1..][1..] == [Project(Idee4)] == z[1..][1..];
    assert Seqs.IsSubsequence([Project(Idee4)], [Project(Idee4)]) by {
      assert [Project(Idee4)][1..] == [];
    }
    assert Seqs.IsSubsequence(z[1..][1..], a[1..][1..]);
    assert Seqs.IsSubsequence(z[1..], a[1..]);
  }

  /** Lookup by id finds the mock ideas 1 to 4 and nothing else. */
  lemma IdeeByIdMock(c: Config, id: string)
    requires !IsConfigured(c)
    ensures IdeeById(c, id).Some? <==> id in {"1", "2", "3", "4"}
  {
    assert MockIdeen[0].id == "1" && MockIdeen[1].id == "2" && MockIdeen[2].id == "3" && MockIdeen[3].id == "4";
    if id in {"1", "2", "3", "4"} {
      var k := if id == "1" then 0 else if id == "2" then 1 else if id == "3" then 2 else 3;
      assert MockIdeen[k].id == id;
    }
  }

  /** The update stubs succeed exactly for the four mock ids. */
  lemma UpdateSucceedsForMockIds(c: Config, id: string)
    requires !IsConfigured(c)
    ensures forall neuerStatus :: UpdateLifecycleStatus(c, id, neuerStatus).success <==> id in {"1", "2", "3", "4"}
    ensures forall k, r, b :: UpdateITOTBewertung(c, id, k, r, b).success <==> id in {"1", "2", "3", "4"}
  {
    IdeeByIdMock(c, id);
  }

  /** A list item as the JSON object the list schema checks. */
  function ItemObject(i: ListItem): Validators.Object {
    map["id" := Json.Str(i.id), "titel" := Json.Str(i.titel), "typ" := Json.Str(i.typ),
        "verantwortlicher" := Json.Str(i.verantwortlicher), "ideengeber" := Json.Str(i.ideengeber),
        "lifecyclestatus" := Json.Str(i.lifecyclestatus)]
  }

  /** The third mock idea's status, "ITOT-Board Bewertung abgeschlossen",
      is not one of the labels of `lifecycleStatusSchema`, so the full
      mock list does not pass `ideenListeSchema`. */
  lemma MockListFailsListSchema(c: Config, xs: seq<Validators.Object>)
    requires !IsConfigured(c)
    requires |xs| == |AlleIdeen(c)| && forall k :: 0 <= k < |xs| ==> xs[k] == ItemObject(AlleIdeen(c)[k])
    ensures !Validators.IdeenListeSchema(xs)
  {
    assert AlleIdeen(c)[2] == Project(Idee3);
    assert Validators.Field(xs[2], "lifecyclestatus") == Json.Str(Idee3.lifecyclestatus);
    Validators.UnknownLabelRejected(Idee3.lifecyclestatus);
    Validators.IdeenListeSchemaIff(xs);
  }
}
