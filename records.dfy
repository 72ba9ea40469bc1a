/** The fields of a `DigitalisierungsvorhabenRecord` (the table's rows as
    the pages receive them) that the page logic reads, and the free-text
    search the idea pages share. */
module Records {
  import opened Wrappers
  import Text

  datatype Vorhaben = Vorhaben(
    id: string,
    name: Option<string>,
    beschreibung: Option<string>,
    verantwortlichername: Option<string>,
    typ: Option<int>,
    lifecyclestatus: Option<int>,
    komplexitaet: Option<int>,
    kritikalitaet: Option<int>,
    sitzung: Option<string>)   // `_cr6df_itotboardsitzung_value`

  /** `field?.toLowerCase().includes(query)`: an absent field never matches. */
  predicate FieldMatches(field: Option<string>, query: string) {
    field.Some? && Text.Contains(Text.Lower(field.value), query)
  }

  /** The search of the idea pages: the lower-cased query occurs in the
      name, the description or the responsible person's name. */
  predicate SearchMatches(r: Vorhaben, searchQuery: string) {
    var query := Text.Lower(searchQuery);
    FieldMatches(r.name, query) || FieldMatches(r.beschreibung, query) || FieldMatches(r.verantwortlichername, query)
  }

  /** The search ignores the case of the query. */
  lemma SearchIgnoresQueryCase(r: Vorhaben, q: string)
    ensures SearchMatches(r, Text.Lower(q)) <==> SearchMatches(r, q)
  {
    Text.LowerIdempotent(q);
  }

  /** The search looks at the three text fields only. */
  lemma SearchReadsThreeFields(r: Vorhaben, s: Vorhaben, q: string)
    requires r.name == s.name && r.beschreibung == s.beschreibung && r.verantwortlichername == s.verantwortlichername
    ensures SearchMatches(r, q) <==> SearchMatches(s, q)
  {
  }
}
