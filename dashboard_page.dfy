/** The board's dashboard (app/dashboard/page.tsx): which records it
    lists, the texts of the two assessment scales and the count label. */
module DashboardPage {
  import opened Wrappers
  import Seqs
  import Records

  type Vorhaben = Records.Vorhaben

  /** The status "Idee wird ITOT-Board vorgestellt". */
  const BoardStatus: int := 562520001

  predicate AwaitsBoard(r: Vorhaben) {
    r.lifecyclestatus == Some(BoardStatus)
  }

  /** The filter in `fetchRecords`. */
  function BoardRecords(records: seq<Vorhaben>): (r: seq<Vorhaben>)
    ensures forall i :: 0 <= i < |r| ==> r[i] in records && r[i].lifecyclestatus == Some(BoardStatus)
    ensures forall i :: 0 <= i < |records| && records[i].lifecyclestatus == Some(BoardStatus) ==> records[i] in r
  {
    Seqs.Filter(records, AwaitsBoard)
  }

  /** Exactly the records awaiting the board, in order; filtering again
      changes nothing. */
  lemma BoardRecordsExact(records: seq<Vorhaben>)
    ensures Seqs.IsSubsequence(BoardRecords(records), records)
    ensures BoardRecords(BoardRecords(records)) == BoardRecords(records)
  {
    Seqs.FilterIsSubsequence(records, AwaitsBoard);
    Seqs.FilterAll(BoardRecords(records), AwaitsBoard);
  }

  /** `getKomplexitaetText` and `getKritikalitaetText`, which are the same
      table. */
  function LevelText(value: int): (r: string)
    ensures r == "Unbekannt" <==> !(562520000 <= value <= 562520002)
    ensures value == 562520000 ==> r == "Gering"
    ensures value == 562520001 ==> r == "Mittel"
    ensures value == 562520002 ==> r == "Hoch"
  {
    match value
    case 562520000 => "Gering"
    case 562520001 => "Mittel"
    case 562520002 => "Hoch"
    case _ => "Unbekannt"
  }

  /** The text shown for a complexity or criticality: a missing or zero
      (falsy) value is "Nicht bewertet". */
  function RatingText(value: Option<int>): (r: string)
    ensures value.None? || value == Some(0) ==> r == "Nicht bewertet"
    ensures value.Some? && value.value != 0 ==> r == LevelText(value.value)
  {
    if value.Some? && value.value != 0 then LevelText(value.value) else "Nicht bewertet"
  }

  /** "Nicht bewertet" and "Unbekannt" tell an unrated record apart from
      a rated one with an unknown code. */
  lemma RatingTextCases(value: Option<int>)
    ensures RatingText(value) == "Nicht bewertet" <==> value.None? || value == Some(0)
    ensures RatingText(value) == "Unbekannt" <==> value.Some? && value.value != 0 && !(562520000 <= value.value <= 562520002)
  {
  }

  /** The badge next to the heading. */
  function CountLabel(n: nat): (r: string)
    ensures r == "Idee" <==> n == 1
    ensures r != "Idee" ==> r == "Ideen"
  {
    if n == 1 then "Idee" else "Ideen"
  }
}
