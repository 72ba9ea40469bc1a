/** The zod schemas of lib/validators.ts, each as the predicate it checks.
    A JavaScript object is a map from property names to values; a missing
    property reads as `undefined`. Extra properties are allowed (zod strips
    them). */
module Validators {
  import Json
  import Text
  import StageConfig

  type Object = map<string, Json.Value>

  /** `o[k]`. */
  function Field(o: Object, k: string): Json.Value {
    if k in o then o[k] else Json.Undefined
  }

  const Levels: seq<string> := ["gering", "mittel", "hoch"]

  /** `komplexitaetSchema`. */
  predicate KomplexitaetSchema(v: Json.Value)
    ensures KomplexitaetSchema(v) ==> v.Str? && 4 <= |v.s| <= 6
  {
    v.Str? && v.s in Levels
  }

  /** `kritikalitaetSchema`: the same three values. */
  predicate KritikalitaetSchema(v: Json.Value)
    ensures KritikalitaetSchema(v) <==> KomplexitaetSchema(v)
  {
    v.Str? && v.s in Levels
  }

  /** The labels `lifecycleStatusSchema` accepts. */
  const LifecycleLabels: seq<string> := [
    "eingereicht",
    "Idee in Qualitätsprüfung",
    "Idee zur Überarbeitung an Ideengeber",
    "Genehmigt",
    "Abgelehnt",
    "Idee wird ITOT-Board vorgestellt",
    "Idee in Projektportfolio aufgenommen",
    "Idee in Quartalsplanung aufgenommen",
    "Idee in Wochenplanung aufgenommen",
    "Idee in Detailanalyse",
    "In Umsetzung",
    "Abgeschlossen"
  ]

  /** `lifecycleStatusSchema`. */
  predicate LifecycleStatusSchema(v: Json.Value)
    ensures LifecycleStatusSchema(v) ==> v.Str? && v.s != ""
  {
    v.Str? && v.s in LifecycleLabels
  }

  /** `z.string().min(10).max(2000)`; zod compares the string's `length`,
      which counts UTF-16 code units. */
  predicate BegruendungSchema(v: Json.Value)
    ensures BegruendungSchema(v) ==> v.Str? && 5 <= |v.s| <= 2000
  {
    v.Str? && 10 <= Text.Utf16Length(v.s) <= 2000
  }

  /** `itotBewertungSchema`: all three fields are required. */
  predicate ItotBewertungSchema(o: Object)
    ensures ItotBewertungSchema(o) ==> "komplexitaet" in o && "kritikalitaet" in o && "itotBoard_begruendung" in o
  {
    KomplexitaetSchema(Field(o, "komplexitaet"))
    && KritikalitaetSchema(Field(o, "kritikalitaet"))
    && BegruendungSchema(Field(o, "itotBoard_begruendung"))
  }

  predicate IsString(v: Json.Value) { v.Str? }

  /** `schema.optional()`: `undefined` or a value the schema accepts. */
  predicate OptionalString(v: Json.Value) { v == Json.Undefined || v.Str? }
  predicate OptionalNumber(v: Json.Value) { v == Json.Undefined || v.Num? }
  predicate OptionalLevel(v: Json.Value) { v == Json.Undefined || KomplexitaetSchema(v) }

  const RequiredIdeeStrings: seq<string> := ["id", "titel", "beschreibung", "typ", "verantwortlicher", "ideengeber"]

  /** `ideeSchema`, without the two coerced date fields. */
  predicate IdeeSchema(o: Object)
    ensures IdeeSchema(o) ==> forall i :: 0 <= i < |RequiredIdeeStrings| ==> RequiredIdeeStrings[i] in o
    ensures IdeeSchema(o) ==> "lifecyclestatus" in o
  {
    (forall i :: 0 <= i < |RequiredIdeeStrings| ==> IsString(Field(o, RequiredIdeeStrings[i])))
    && OptionalString(Field(o, "detailanalyse_ergebnis"))
    && OptionalNumber(Field(o, "detailanalyse_personentage"))
    && OptionalString(Field(o, "detailanalyse_nutzen"))
    && OptionalLevel(Field(o, "komplexitaet"))
    && OptionalLevel(Field(o, "kritikalitaet"))
    && OptionalString(Field(o, "itotBoard_begruendung"))
    && LifecycleStatusSchema(Field(o, "lifecyclestatus"))
  }

  const ListItemStrings: seq<string> := ["id", "titel", "typ", "verantwortlicher", "ideengeber"]

  /** `ideenListeItemSchema`. */
  predicate IdeenListeItemSchema(o: Object)
    ensures IdeenListeItemSchema(o) ==> forall i :: 0 <= i < |ListItemStrings| ==> ListItemStrings[i] in o
    ensures IdeenListeItemSchema(o) ==> "lifecyclestatus" in o
  {
    (forall i :: 0 <= i < |ListItemStrings| ==> IsString(Field(o, ListItemStrings[i])))
    && LifecycleStatusSchema(Field(o, "lifecyclestatus"))
  }

  /** `ideenListeSchema = z.array(ideenListeItemSchema)`, element by element. */
  predicate IdeenListeSchema(xs: seq<Object>)
    ensures IdeenListeSchema(xs) ==> forall i :: 0 <= i < |xs| ==> IdeenListeItemSchema(xs[i])
    decreases |xs|
  {
    xs == [] || (IdeenListeItemSchema(xs[0]) && IdeenListeSchema(xs[1..]))
  }

  // ---------------------------------------------------------------- properties

  /** The two level schemas accept exactly "gering", "mittel" and "hoch". */
  lemma LevelValues(v: Json.Value)
    ensures KomplexitaetSchema(v) <==> v == Json.Str("gering") || v == Json.Str("mittel") || v == Json.Str("hoch")
    ensures KritikalitaetSchema(v) <==> KomplexitaetSchema(v)
  {
  }

  /** The reason is accepted iff its UTF-16 length is between 10 and 2000;
      for text without astral characters that is its character count. */
  lemma BegruendungBounds(s: string)
    ensures BegruendungSchema(Json.Str(s)) <==> 10 <= Text.Utf16Length(s) <= 2000
    ensures (forall i :: 0 <= i < |s| ==> !Text.Astral(s[i])) ==> (BegruendungSchema(Json.Str(s)) <==> 10 <= |s| <= 2000)
    ensures !BegruendungSchema(Json.Undefined)
  {
    if forall i :: 0 <= i < |s| ==> !Text.Astral(s[i]) {
      Text.Utf16LengthBmp(s);
    }
  }

  /** Five emoji are five characters but ten code units, so zod accepts
      them as a reason. */
  lemma AstralReasonCountsTwice()
    ensures BegruendungSchema(Json.Str("\U{1F600}\U{1F600}\U{1F600}\U{1F600}\U{1F600}"))
  {
    var e := "\U{1F600}\U{1F600}\U{1F600}\U{1F600}\U{1F600}";
    assert |e| == 5;
    assert Text.Utf16Length(e[4..]) == 2;
    assert Text.Utf16Length(e[3..]) == 4;
    assert Text.Utf16Length(e[2..]) == 6;
    assert Text.Utf16Length(e[1..]) == 8;
  }

  /** A missing field fails the assessment schema. */
  lemma BewertungNeedsAllFields(o: Object, k: string)
    requires k in {"komplexitaet", "kritikalitaet", "itotBoard_begruendung"}
    requires k !in o
    ensures !ItotBewertungSchema(o)
  {
  }

  /** The label the mock data and lib/types.ts use for an assessed idea
      is not a lifecycle label. */
  lemma UnknownLabelRejected(l: string)
    requires l == "ITOT-Board Bewertung abgeschlossen"
    ensures !LifecycleStatusSchema(Json.Str(l))
  {
    assert l[1] == 'T';
    forall i | 0 <= i < |LifecycleLabels| ensures LifecycleLabels[i] != l {
      assert LifecycleLabels[i][1] != 'T';
    }
  }

  /** The list schema holds iff every element passes the item schema; in
      particular it accepts the empty list. */
  lemma {:induction false} IdeenListeSchemaIff(xs: seq<Object>)
    ensures IdeenListeSchema(xs) <==> forall i :: 0 <= i < |xs| ==> IdeenListeItemSchema(xs[i])
    decreases |xs|
  {
    if xs != [] {
      IdeenListeSchemaIff(xs[1..]);
      assert forall i :: 1 <= i < |xs| ==> xs[i] == xs[1..][i - 1];
    }
  }

  /** An idea with only the seven required fields passes `ideeSchema`, and
      removing any of them makes it fail: all other fields are optional. */
  lemma IdeeRequiredFields(id: string, titel: string, beschreibung: string, typ: string,
                           verantwortlicher: string, ideengeber: string, status: string, drop: string)
    requires status in LifecycleLabels
    ensures var o := map["id" := Json.Str(id), "titel" := Json.Str(titel), "beschreibung" := Json.Str(beschreibung),
                         "typ" := Json.Str(typ), "verantwortlicher" := Json.Str(verantwortlicher),
                         "ideengeber" := Json.Str(ideengeber), "lifecyclestatus" := Json.Str(status)];
      IdeeSchema(o) && (drop in o.Keys ==> !IdeeSchema(map k | k in o && k != drop :: o[k]))
  {
    var o := map["id" := Json.Str(id), "titel" := Json.Str(titel), "beschreibung" := Json.Str(beschreibung),
                 "typ" := Json.Str(typ), "verantwortlicher" := Json.Str(verantwortlicher),
                 "ideengeber" := Json.Str(ideengeber), "lifecyclestatus" := Json.Str(status)];
    if drop in o.Keys {
      var o' := map k | k in o && k != drop :: o[k];
      assert Field(o', drop) == Json.Undefined;
      if drop != "lifecyclestatus" {
        var i :| 0 <= i < |RequiredIdeeStrings| && RequiredIdeeStrings[i] == drop by {
          assert drop in RequiredIdeeStrings;
        }
      }
    }
  }

  /** The schema's twelve labels are exactly the labels of the status
      table in lib/stageConfig.ts. */
  lemma LabelsMatchStatusTable(l: string)
    ensures l in LifecycleLabels <==> exists c :: c in StageConfig.LifecycleStatusMap && StageConfig.LifecycleStatusMap[c].statusLabel == l
  {
    var m := StageConfig.LifecycleStatusMap;
    if l in LifecycleLabels {
      if l == "eingereicht" { assert m[562520000].statusLabel == l; }
      else if l == "Idee in Qualitätsprüfung" { assert m[562520001].statusLabel == l; }
      else if l == "Idee zur Überarbeitung an Ideengeber" { assert m[562520002].statusLabel == l; }
      else if l == "Genehmigt" { assert m[562520003].statusLabel == l; }
      else if l == "Abgelehnt" { assert m[562520004].statusLabel == l; }
      else if l == "Idee wird ITOT-Board vorgestellt" { assert m[562520005].statusLabel == l; }
      else if l == "Idee in Projektportfolio aufgenommen" { assert m[562520006].statusLabel == l; }
      else if l == "Idee in Quartalsplanung aufgenommen" { assert m[562520007].statusLabel == l; }
      else if l == "Idee in Wochenplanung aufgenommen" { assert m[562520008].statusLabel == l; }
      else if l == "Idee in Detailanalyse" { assert m[562520009].statusLabel == l; }
      else if l == "In Umsetzung" { assert m[562520010].statusLabel == l; }
      else { assert m[562520011].statusLabel == l; }
    }
  }
}
