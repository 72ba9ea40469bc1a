/** The Dataverse test page (app/dataverse/page.tsx): free-text search,
    grouping by type and the status badge. Its picklist codes are 1, 2, 3
    (type) and 1 to 6 (status), unlike the 5625200xx codes of the idea
    page. */
module DataversePage {
  import opened Wrappers
  import Seqs
  import Records
  import VorhabenForm

  type Vorhaben = Records.Vorhaben

  /** The callback of `records.filter`: an empty query accepts everything. */
  predicate Accepts(r: Vorhaben, searchQuery: string) {
    searchQuery == "" || Records.SearchMatches(r, searchQuery)
  }

  /** `filteredRecords`. */
  function FilteredRecords(records: seq<Vorhaben>, searchQuery: string): (r: seq<Vorhaben>)
    ensures forall i :: 0 <= i < |r| ==> r[i] in records && Accepts(r[i], searchQuery)
    ensures forall i :: 0 <= i < |records| && Accepts(records[i], searchQuery) ==> records[i] in r
  {
    Seqs.Filter(records, x => Accepts(x, searchQuery))
  }

  /** An empty query returns the records unchanged; a query returns the
      matching ones in their order. */
  lemma SearchResult(records: seq<Vorhaben>, searchQuery: string)
    ensures searchQuery == "" ==> FilteredRecords(records, searchQuery) == records
    ensures Seqs.IsSubsequence(FilteredRecords(records, searchQuery), records)
  {
    if searchQuery == "" {
      Seqs.FilterAll(records, x => Accepts(x, searchQuery));
    }
    Seqs.FilterIsSubsequence(records, x => Accepts(x, searchQuery));
  }

  /** `getTypText`. */
  function TypText(typ: Option<int>): (r: string)
    ensures r == "Sonstige" <==> !(typ.Some? && 1 <= typ.value <= 3)
    ensures typ == Some(1) ==> r == "Idee"
    ensures typ == Some(2) ==> r == "Vorhaben"
    ensures typ == Some(3) ==> r == "Projekt"
  {
    match typ
    case Some(1) => "Idee"
    case Some(2) => "Vorhaben"
    case Some(3) => "Projekt"
    case _ => "Sonstige"
  }

  /** A record of the idea page's type "Idee" (562520000) lands in
      "Sonstige" here. */
  lemma IdeaPageCodeIsOther()
    ensures TypText(Some(562520000)) == "Sonstige"
  {
  }

  function TypKey(r: Vorhaben): (k: string)
    ensures k in GroupNames
  {
    TypText(r.typ)
  }

  const GroupNames: seq<string> := ["Idee", "Vorhaben", "Projekt", "Sonstige"]

  /** `groupedRecords`. */
  method GroupedRecords(filtered: seq<Vorhaben>) returns (groups: map<string, seq<Vorhaben>>)
    ensures forall k :: k in groups ==> k in GroupNames && groups[k] != []
    ensures forall i :: 0 <= i < |filtered| ==> TypKey(filtered[i]) in groups
    ensures forall k :: k in groups ==> groups[k] == Seqs.Group(filtered, TypKey, k)
  {
    groups := Seqs.GroupBy(filtered, TypKey);
    forall k | k in groups ensures k in GroupNames {
      var i :| 0 <= i < |filtered| && TypKey(filtered[i]) == k;
    }
  }

  /** The groups partition the filtered records, order kept. */
  lemma GroupsPartition(filtered: seq<Vorhaben>)
    ensures forall k :: Seqs.IsSubsequence(Seqs.Group(filtered, TypKey, k), filtered)
    ensures Seqs.SizeSum(filtered, TypKey, GroupNames) == |filtered|
  {
    Seqs.GroupSizesSum(filtered, TypKey, GroupNames);
  }

  /** `getStatusBadge` with the codes 1 to 6. */
  function StatusBadge(status: Option<int>): (b: VorhabenForm.Badge)
    ensures b.text == "Keine Phase" <==> !(status.Some? && 1 <= status.value <= 6)
    ensures status == Some(1) ==> b.text == "Eingereicht"
    ensures status == Some(2) ==> b.text == "ITOT-Board"
    ensures status == Some(3) ==> b.text == "Bewertet"
    ensures status == Some(4) ==> b.text == "In Umsetzung"
    ensures status == Some(5) ==> b.text == "Abgeschlossen"
    ensures status == Some(6) ==> b.text == "Abgelehnt"
  {
    match status
    case Some(1) => VorhabenForm.Badge("Eingereicht", "bg-gray-100 text-gray-600")
    case Some(2) => VorhabenForm.Badge("ITOT-Board", "bg-amber-100 text-amber-700")
    case Some(3) => VorhabenForm.Badge("Bewertet", "bg-green-100 text-green-700")
    case Some(4) => VorhabenForm.Badge("In Umsetzung", "bg-blue-100 text-blue-700")
    case Some(5) => VorhabenForm.Badge("Abgeschlossen", "bg-green-50 text-green-600 border border-green-200")
    case Some(6) => VorhabenForm.Badge("Abgelehnt", "bg-red-100 text-red-700")
    case _ => VorhabenForm.Badge("Keine Phase", "bg-violet-100 text-violet-700")
  }

  /** Codes 1 to 6 show the same labels as the codes 562520000 to
      562520005 of the form; a 5625200xx code shows "Keine Phase" here. */
  lemma BadgeShiftedCodes(i: int)
    requires 0 <= i < 6
    ensures StatusBadge(Some(i + 1)) == VorhabenForm.StatusBadge(Some(562520000 + i))
    ensures StatusBadge(Some(562520000 + i)).text == "Keine Phase"
  {
  }
}
