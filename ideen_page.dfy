/** The "Alle Ideen" page (app/ideen/page.tsx): search and the two
    picklist filters, the type text, and the grouping of the shown
    records by type. */
module IdeenPage {
  import opened Wrappers
  import Seqs
  import Records
  import VorhabenForm
  import StageConfig

  type Vorhaben = Records.Vorhaben

  /** `searchQuery`, `filterTyp` and `filterStatus`. */
  datatype Filters = Filters(searchQuery: string, filterTyp: Option<int>, filterStatus: Option<int>)

  const NoFilters: Filters := Filters("", None, None)

  predicate SearchOk(r: Vorhaben, f: Filters) {
    f.searchQuery == "" || Records.SearchMatches(r, f.searchQuery)
  }

  predicate TypOk(r: Vorhaben, f: Filters) {
    f.filterTyp.None? || r.typ == f.filterTyp
  }

  predicate StatusOk(r: Vorhaben, f: Filters) {
    f.filterStatus.None? || r.lifecyclestatus == f.filterStatus
  }

  /** The callback of `records.filter`. */
  predicate Accepts(r: Vorhaben, f: Filters) {
    if f.searchQuery != "" && !Records.SearchMatches(r, f.searchQuery) then false
    else if f.filterTyp.Some? && r.typ != f.filterTyp then false
    else if f.filterStatus.Some? && r.lifecyclestatus != f.filterStatus then false
    else true
  }

  /** `filteredRecords`. */
  function FilteredRecords(records: seq<Vorhaben>, f: Filters): (r: seq<Vorhaben>)
    ensures forall i :: 0 <= i < |r| ==> r[i] in records && SearchOk(r[i], f) && TypOk(r[i], f) && StatusOk(r[i], f)
    ensures forall i :: 0 <= i < |records| && SearchOk(records[i], f) && TypOk(records[i], f) && StatusOk(records[i], f)
              ==> records[i] in r
  {
    Seqs.Filter(records, x => Accepts(x, f))
  }

  /** The filtered records keep their order. */
  lemma FilteredInOrder(records: seq<Vorhaben>, f: Filters)
    ensures Seqs.IsSubsequence(FilteredRecords(records, f), records)
  {
    Seqs.FilterIsSubsequence(records, x => Accepts(x, f));
  }

  /** Without search and filters every record is shown. */
  lemma NoFiltersShowAll(records: seq<Vorhaben>)
    ensures FilteredRecords(records, NoFilters) == records
  {
    Seqs.FilterAll(records, x => Accepts(x, NoFilters));
  }

  /** The three conditions combine conjunctively: filtering by all of them
      at once is searching, then filtering by type, then by status. */
  lemma FiltersCombine(records: seq<Vorhaben>, f: Filters)
    ensures FilteredRecords(records, f) ==
      Seqs.Filter(Seqs.Filter(Seqs.Filter(records, x => SearchOk(x, f)), x => TypOk(x, f)), x => StatusOk(x, f))
  {
    Seqs.FilterCompose(records, x => SearchOk(x, f), x => TypOk(x, f), x => SearchOk(x, f) && TypOk(x, f));
    Seqs.FilterCompose(Seqs.Filter(records, x => SearchOk(x, f)), x => TypOk(x, f), x => StatusOk(x, f),
                       x => TypOk(x, f) && StatusOk(x, f));
    Seqs.FilterCompose(records, x => SearchOk(x, f), x => TypOk(x, f) && StatusOk(x, f), x => Accepts(x, f));
    Seqs.FilterCompose(records, x => SearchOk(x, f) && TypOk(x, f), x => StatusOk(x, f), x => Accepts(x, f));
  }

  /** `getTypText`. */
  function TypText(typ: Option<int>): (r: string)
    ensures r == "Sonstige" <==> !(typ.Some? && 562520000 <= typ.value <= 562520002)
    ensures typ == Some(562520000) ==> r == "Idee"
    ensures typ == Some(562520001) ==> r == "Vorhaben"
    ensures typ == Some(562520002) ==> r == "Projekt"
  {
    match typ
    case Some(562520000) => "Idee"
    case Some(562520001) => "Vorhaben"
    case Some(562520002) => "Projekt"
    case _ => "Sonstige"
  }

  function TypKey(r: Vorhaben): (k: string)
    ensures k in GroupNames
  {
    TypText(r.typ)
  }

  /** Every group name the page can produce. */
  const GroupNames: seq<string> := ["Idee", "Vorhaben", "Projekt", "Sonstige"]

  /** `groupedRecords`: the `reduce` that pushes each record into the
      array of its type text. */
  method GroupedRecords(filtered: seq<Vorhaben>) returns (groups: map<string, seq<Vorhaben>>)
    ensures forall k :: k in groups ==> k in GroupNames && groups[k] != []
    ensures forall i :: 0 <= i < |filtered| ==> TypKey(filtered[i]) in groups
    ensures forall k :: k in groups ==> groups[k] == Seqs.Group(filtered, TypKey, k)
  {
    groups := Seqs.GroupBy(filtered, TypKey);
    forall k | k in groups ensures k in GroupNames {
      var i :| 0 <= i < |filtered| && TypKey(filtered[i]) == k;
    }
  }

  /** The groups partition the shown records: each group keeps the order,
      and the sizes of the four groups add up to the number shown. */
  lemma GroupsPartition(filtered: seq<Vorhaben>)
    ensures forall k :: Seqs.IsSubsequence(Seqs.Group(filtered, TypKey, k), filtered)
    ensures Seqs.SizeSum(filtered, TypKey, GroupNames) == |filtered|
  {
    Seqs.GroupSizesSum(filtered, TypKey, GroupNames);
  }

  /** `getStatusBadge`: the page carries its own copy of the form's badge
      table, code for code. */
  function StatusBadge(status: Option<int>): (b: VorhabenForm.Badge)
    ensures b.text == "Keine Phase" <==> !(status.Some? && 562520000 <= status.value <= 562520007)
  {
    VorhabenForm.StatusBadge(status)
  }

  /** The badge knows eight of the twelve lifecycle codes: the last four,
      which the status table does name, are shown as "Keine Phase". */
  lemma LaterCodesShowNoPhase(c: int)
    requires 562520000 <= c <= 562520011
    ensures StageConfig.StatusLabel(Some(c)) != StageConfig.Unknown
    ensures StatusBadge(Some(c)).text == "Keine Phase" <==> c >= 562520008
  {
    StageConfig.StatusCodes();
  }
}
