/** The board-session page (app/sitzungen/page.tsx): the month calendar
    grid, the date-range filter of the session list, the collapse flags,
    the idea selection, which ideas belong to which session, the
    assignment of the selected ideas, and month navigation. Dates are day
    numbers; the weekday of the first of the month and the month lengths
    are inputs. */
module SitzungenPage {
  import opened Wrappers
  import Seqs
  import Records

  type Vorhaben = Records.Vorhaben

  // ---------------------------------------------------------------- calendar

  /** One calendar cell: day of month, whether it belongs to the shown
      month, and which month it is from (-1 previous, 0 shown, 1 next). */
  datatype Cell = Cell(day: int, isCurrentMonth: bool, monthOffset: int)

  /** Monday-first position of the first of the month; `getDay` counts
      from Sunday = 0, and Sunday becomes 6. */
  function LeadingDays(weekdayOfFirst: int): (n: int)
    requires 0 <= weekdayOfFirst < 7
    ensures 0 <= n < 7 && n == (weekdayOfFirst + 6) % 7
  {
    if weekdayOfFirst - 1 < 0 then 6 else weekdayOfFirst - 1
  }

  /** The grid the three loops build: the previous month's last days, the
      shown month, then the next month's first days up to 42 cells. */
  ghost function Grid(weekdayOfFirst: int, lastDay: int, prevLastDay: int): seq<Cell>
    requires 0 <= weekdayOfFirst < 7 && 28 <= lastDay <= 31 && 28 <= prevLastDay <= 31
  {
    var lead := LeadingDays(weekdayOfFirst);
    seq(42, i requires 0 <= i < 42 =>
      if i < lead then Cell(prevLastDay - lead + 1 + i, false, -1)
      else if i < lead + lastDay then Cell(i - lead + 1, true, 0)
      else Cell(i - lead - lastDay + 1, false, 1))
  }

  /** `calendarDays`. `new Date(year, month, -i)` is the previous month's
      day `prevLastDay - i`. */
  method CalendarDays(weekdayOfFirst: int, lastDay: int, prevLastDay: int) returns (days: seq<Cell>)
    requires 0 <= weekdayOfFirst < 7 && 28 <= lastDay <= 31 && 28 <= prevLastDay <= 31
    ensures days == Grid(weekdayOfFirst, lastDay, prevLastDay)
  {
    var startDayOfWeek := weekdayOfFirst - 1;
    if startDayOfWeek < 0 {
      startDayOfWeek := 6;
    }
    ghost var lead := LeadingDays(weekdayOfFirst);
    ghost var grid := Grid(weekdayOfFirst, lastDay, prevLastDay);
    days := [];
    var i := startDayOfWeek - 1;
    while i >= 0
      invariant -1 <= i < lead
      invariant |days| == lead - 1 - i
      invariant days == grid[..|days|]
    {
      days := days + [Cell(prevLastDay - i, false, -1)];
      i := i - 1;
    }
    var d := 1;
    while d <= lastDay
      invariant 1 <= d <= lastDay + 1
      invariant |days| == lead + d - 1
      invariant days == grid[..|days|]
    {
      days := days + [Cell(d, true, 0)];
      d := d + 1;
    }
    var remainingDays := 42 - |days|;
    var k := 1;
    while k <= remainingDays
      invariant 1 <= k <= remainingDays + 1
      invariant |days| == lead + lastDay + k - 1
      invariant days == grid[..|days|]
    {
      days := days + [Cell(k, false, 1)];
      k := k + 1;
    }
  }

  /** The grid has six full weeks; exactly the cells `lead` to
      `lead + lastDay - 1` belong to the month and are numbered 1 to
      `lastDay`; the leading cells are the previous month's last days in
      increasing order, ending with its last day; the trailing cells count
      1, 2, ... up to `42 - lead - lastDay`. */
  lemma GridShape(weekdayOfFirst: int, lastDay: int, prevLastDay: int)
    requires 0 <= weekdayOfFirst < 7 && 28 <= lastDay <= 31 && 28 <= prevLastDay <= 31
    ensures var g := Grid(weekdayOfFirst, lastDay, prevLastDay); var lead := (weekdayOfFirst + 6) % 7;
      && |g| == 42
      && (forall i :: 0 <= i < 42 ==> (g[i].isCurrentMonth <==> lead <= i < lead + lastDay))
      && (forall d :: 1 <= d <= lastDay ==> g[lead + d - 1] == Cell(d, true, 0))
      && (lead > 0 ==> g[lead - 1].day == prevLastDay && g[lead - 1].monthOffset == -1)
      && (forall i :: 0 <= i < lead - 1 ==> g[i + 1].day == g[i].day + 1 && g[i].monthOffset == -1)
      && (forall t :: 1 <= t <= 42 - lead - lastDay ==> g[lead + lastDay + t - 1] == Cell(t, false, 1))
      && 42 - lead - lastDay >= 5
  {
  }

  /** A month starting on a Monday has no leading cells; one starting on
      a Sunday has six. */
  lemma GridCorners(lastDay: int, prevLastDay: int)
    requires 28 <= lastDay <= 31 && 28 <= prevLastDay <= 31
    ensures Grid(1, lastDay, prevLastDay)[0] == Cell(1, true, 0)
    ensures Grid(0, lastDay, prevLastDay)[6] == Cell(1, true, 0)
    ensures Grid(0, lastDay, prevLastDay)[0] == Cell(prevLastDay - 5, false, -1)
  {
  }

  // ---------------------------------------------------------------- month navigation

  /** `currentMonth` as year and zero-based month. */
  datatype YearMonth = YearMonth(year: int, month: int)

  predicate ValidMonth(m: YearMonth) {
    0 <= m.month < 12
  }

  /** `new Date(year, month, 1)` normalises an out-of-range month into the
      neighbouring year. */
  function Normalize(year: int, month: int): (r: YearMonth)
    ensures ValidMonth(r) && r.year * 12 + r.month == year * 12 + month
  {
    YearMonth(year + month / 12, month % 12)
  }

  function PreviousMonth(m: YearMonth): (r: YearMonth)
    ensures ValidMonth(r) && r.year * 12 + r.month == m.year * 12 + m.month - 1
  {
    Normalize(m.year, m.month - 1)
  }

  function NextMonth(m: YearMonth): (r: YearMonth)
    ensures ValidMonth(r) && r.year * 12 + r.month == m.year * 12 + m.month + 1
  {
    Normalize(m.year, m.month + 1)
  }

  /** Forward then back (or back then forward) returns to the month. */
  lemma NavigationRoundTrip(m: YearMonth)
    requires ValidMonth(m)
    ensures PreviousMonth(NextMonth(m)) == m
    ensures NextMonth(PreviousMonth(m)) == m
  {
    var a := PreviousMonth(NextMonth(m));
    assert a.year * 12 + a.month == m.year * 12 + m.month;
    var b := NextMonth(PreviousMonth(m));
    assert b.year * 12 + b.month == m.year * 12 + m.month;
  }

  /** December to January crosses the year. */
  lemma YearBoundary(year: int)
    ensures NextMonth(YearMonth(year, 11)) == YearMonth(year + 1, 0)
    ensures PreviousMonth(YearMonth(year, 0)) == YearMonth(year - 1, 11)
  {
  }

  // ---------------------------------------------------------------- session list

  /** The fields of an `ITOTBoardSitzung` the page logic reads; the date
      is a day number, `None` when absent or empty. */
  datatype Sitzung = Sitzung(id: Option<string>, sitzungsdatum: Option<int>)

  /** The callback of `filteredSitzungen`: dated, and within the bounds
      by calendar day, both inclusive; an absent bound is no bound. */
  predicate InRange(s: Sitzung, start: Option<int>, end: Option<int>) {
    if s.sitzungsdatum.None? then false
    else if start.Some? && s.sitzungsdatum.value < start.value then false
    else if end.Some? && s.sitzungsdatum.value > end.value then false
    else true
  }

  function FilteredSitzungen(sitzungen: seq<Sitzung>, start: Option<int>, end: Option<int>): (r: seq<Sitzung>)
    ensures forall i :: 0 <= i < |r| ==> r[i] in sitzungen && r[i].sitzungsdatum.Some?
    ensures forall i :: 0 <= i < |r| ==> start.Some? ==> start.value <= r[i].sitzungsdatum.value
    ensures forall i :: 0 <= i < |r| ==> end.Some? ==> r[i].sitzungsdatum.value <= end.value
    ensures forall i :: 0 <= i < |sitzungen| && InRange(sitzungen[i], start, end) ==> sitzungen[i] in r
  {
    Seqs.Filter(sitzungen, s => InRange(s, start, end))
  }

  /** The list keeps the sessions' order. */
  lemma FilteredSitzungenInOrder(sitzungen: seq<Sitzung>, start: Option<int>, end: Option<int>)
    ensures Seqs.IsSubsequence(FilteredSitzungen(sitzungen, start, end), sitzungen)
  {
    Seqs.FilterIsSubsequence(sitzungen, s => InRange(s, start, end));
  }

  /** The bounds include their own day, and a session outside them is
      never listed. */
  lemma BoundsInclusive(s: Sitzung, day: int)
    requires s.sitzungsdatum == Some(day)
    ensures FilteredSitzungen([s], Some(day), Some(day)) == [s]
    ensures FilteredSitzungen([s], Some(day + 1), None) == []
    ensures FilteredSitzungen([s], None, Some(day - 1)) == []
  {
  }

  /** Without bounds, exactly the dated sessions are listed. */
  lemma NoBoundsKeepsDated(sitzungen: seq<Sitzung>)
    ensures forall i :: 0 <= i < |sitzungen| && sitzungen[i].sitzungsdatum.Some? ==>
      sitzungen[i] in FilteredSitzungen(sitzungen, None, None)
    ensures forall i :: 0 <= i < |sitzungen| && sitzungen[i].sitzungsdatum.None? ==>
      sitzungen[i] !in FilteredSitzungen(sitzungen, None, None)
  {
  }

  // ---------------------------------------------------------------- collapse flags

  /** `toggleSitzung`: flips one flag; an absent flag counts as false. */
  function ToggleSitzung(collapsed: map<string, bool>, sitzungId: string): (r: map<string, bool>)
    ensures r.Keys == collapsed.Keys + {sitzungId}
    ensures r[sitzungId] == !(sitzungId in collapsed && collapsed[sitzungId])
    ensures forall k :: k in collapsed && k != sitzungId ==> r[k] == collapsed[k]
  {
    collapsed[sitzungId := !(sitzungId in collapsed && collapsed[sitzungId])]
  }

  /** Toggling twice restores the flag as shown. */
  lemma ToggleSitzungTwice(collapsed: map<string, bool>, sitzungId: string)
    ensures var r := ToggleSitzung(ToggleSitzung(collapsed, sitzungId), sitzungId);
      r[sitzungId] == (sitzungId in collapsed && collapsed[sitzungId]) &&
      forall k :: k in collapsed ==> k in r && r[k] == collapsed[k]
  {
  }

  // ---------------------------------------------------------------- idea assignment

  /** A record's session lookup counts only when it is a non-empty id. */
  predicate HasSession(x: Vorhaben) {
    x.sitzung.Some? && x.sitzung.value != ""
  }

  /** `unassignedIdeen`. */
  function UnassignedIdeen(ideen: seq<Vorhaben>): (r: seq<Vorhaben>)
    ensures forall i :: 0 <= i < |r| ==> r[i] in ideen && !HasSession(r[i])
    ensures forall i :: 0 <= i < |ideen| && !HasSession(ideen[i]) ==> ideen[i] in r
  {
    Seqs.Filter(ideen, (x: Vorhaben) => !HasSession(x))
  }

  /** `getAssignedIdeen`: nothing for a missing or empty id. */
  function AssignedIdeen(ideen: seq<Vorhaben>, sitzungId: Option<string>): (r: seq<Vorhaben>)
    ensures sitzungId.None? || sitzungId == Some("") ==> r == []
    ensures forall i :: 0 <= i < |r| ==> r[i] in ideen && r[i].sitzung == sitzungId
    ensures sitzungId.Some? && sitzungId.value != "" ==>
      forall i :: 0 <= i < |ideen| && ideen[i].sitzung == sitzungId ==> ideen[i] in r
  {
    if sitzungId.None? || sitzungId.value == "" then [] else Seqs.Filter(ideen, (x: Vorhaben) => x.sitzung == sitzungId)
  }

  /** Every idea is unassigned or the idea of exactly one session. */
  lemma AssignmentPartition(ideen: seq<Vorhaben>, i: int)
    requires 0 <= i < |ideen|
    ensures ideen[i] in UnassignedIdeen(ideen) <==> !HasSession(ideen[i])
    ensures forall s :: ideen[i] in AssignedIdeen(ideen, Some(s)) <==> s != "" && ideen[i].sitzung == Some(s)
  {
    forall s ensures ideen[i] in AssignedIdeen(ideen, Some(s)) <==> s != "" && ideen[i].sitzung == Some(s) {
      if ideen[i] in AssignedIdeen(ideen, Some(s)) {
        var r := AssignedIdeen(ideen, Some(s));
        var j :| 0 <= j < |r| && r[j] == ideen[i];
      }
    }
    if ideen[i] in UnassignedIdeen(ideen) {
      var r := UnassignedIdeen(ideen);
      var j :| 0 <= j < |r| && r[j] == ideen[i];
    }
  }

  /** The outcome of `handleAssignIdeas`. */
  datatype AssignOutcome = NothingToDo | AllAssigned | Failed(message: string)

  /** How one PATCH of the assignment route ends: a response with its `ok`
      flag, or a `fetch` that rejects with an error message. */
  datatype FetchAnswer = Responded(ok: bool) | FetchThrew(message: string)

  predicate Succeeded(a: FetchAnswer) {
    a.Responded? && a.ok
  }

  /** The error the page shows for the request that ended the loop: the
      rejection's own message, or the one thrown for a non-ok response. */
  function FailureMessage(ideaId: string, a: FetchAnswer): (m: string)
    ensures a.FetchThrew? ==> m == a.message
    ensures a.Responded? ==> m == "Fehler beim Zuweisen der Idee " + ideaId
  {
    if a.FetchThrew? then a.message else "Fehler beim Zuweisen der Idee " + ideaId
  }

  /** The index of the first idea whose request did not succeed, or the count. */
  function FirstFailure(selected: seq<string>, answer: string -> FetchAnswer): (k: nat)
    ensures k <= |selected|
    ensures forall i :: 0 <= i < k ==> Succeeded(answer(selected[i]))
    ensures k < |selected| ==> !Succeeded(answer(selected[k]))
    decreases |selected|
  {
    if |selected| == 0 then 0
    else if !Succeeded(answer(selected[0])) then 0
    else 1 + FirstFailure(selected[1..], answer)
  }

  /** A PATCH of the assignment route: the idea and the session's id. */
  datatype AssignRequest = AssignRequest(ideaId: string, sitzungId: Option<string>)

  /** `handleAssignIdeas`, given how the route answers each request: one
      request per selected idea in selection order, stopping after the
      first that is not ok or that throws; earlier assignments are not
      undone. */
  method HandleAssignIdeas(assigning: Option<Sitzung>, selected: seq<string>, answer: string -> FetchAnswer)
    returns (requests: seq<AssignRequest>, outcome: AssignOutcome)
    ensures assigning.None? || selected == [] ==> requests == [] && outcome == NothingToDo
    ensures assigning.Some? && selected != [] ==>
      var k := FirstFailure(selected, answer);
      && |requests| == (if k < |selected| then k + 1 else k)
      && (forall i :: 0 <= i < |requests| ==> requests[i] == AssignRequest(selected[i], assigning.value.id))
      && (forall i :: 0 <= i < |requests| - 1 ==> Succeeded(answer(requests[i].ideaId)))
      && outcome == (if k < |selected| then Failed(FailureMessage(selected[k], answer(selected[k]))) else AllAssigned)
  {
    if assigning.None? || |selected| == 0 {
      return [], NothingToDo;
    }
    requests := [];
    var i := 0;
    while i < |selected|
      invariant 0 <= i <= |selected|
      invariant i <= FirstFailure(selected, answer)
      invariant |requests| == i
      invariant forall j :: 0 <= j < i ==> requests[j] == AssignRequest(selected[j], assigning.value.id)
    {
      requests := requests + [AssignRequest(selected[i], assigning.value.id)];
      var a := answer(selected[i]);
      if a.FetchThrew? {
        return requests, Failed(a.message);
      }
      if !a.ok {
        return requests, Failed("Fehler beim Zuweisen der Idee " + selected[i]);
      }
      i := i + 1;
    }
    outcome := AllAssigned;
  }
}
