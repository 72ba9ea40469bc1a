/** The table of records (components/dataverse/DigitalisierungsvorhabenTable.tsx):
    the two-click delete confirmation, the code-to-text mappings of its
    columns, and which of its four views it renders. The 3-second timer is
    an explicit `Timeout` event. */
module VorhabenTable {
  import opened Wrappers

  // ---------------------------------------------------------------- delete confirmation

  /** `deleteConfirm` together with the ids passed to `onDelete` so far. */
  datatype Confirm = Confirm(armed: Option<string>, deleted: seq<string>)

  const Initial: Confirm := Confirm(None, [])

  datatype Event = Click(id: string) | Timeout

  /** `handleDeleteClick` and the timer's reset. The reset disarms
      whatever is armed when it fires, as written. */
  function Step(s: Confirm, e: Event): (r: Confirm)
    ensures e.Click? && s.armed == Some(e.id) ==> r == Confirm(None, s.deleted + [e.id])
    ensures e.Click? && s.armed != Some(e.id) ==> r == Confirm(Some(e.id), s.deleted)
    ensures e.Timeout? ==> r == Confirm(None, s.deleted)
  {
    match e
    case Click(id) =>
      if s.armed == Some(id) then Confirm(None, s.deleted + [id]) else Confirm(Some(id), s.deleted)
    case Timeout => s.(armed := None)
  }

  /** A first click only arms. */
  lemma FirstClickArms(s: Confirm, id: string)
    requires s.armed != Some(id)
    ensures Step(s, Click(id)).armed == Some(id)
    ensures Step(s, Click(id)).deleted == s.deleted
  {
  }

  /** Two clicks on one id delete it exactly once and disarm. */
  lemma SecondClickDeletes(s: Confirm, id: string)
    requires s.armed != Some(id)
    ensures Step(Step(s, Click(id)), Click(id)) == Confirm(None, s.deleted + [id])
  {
  }

  /** Clicking another id while one is armed re-arms without deleting. */
  lemma OtherClickRearms(s: Confirm, a: string, b: string)
    requires a != b
    ensures Step(Step(s, Click(a)), Click(b)) == Confirm(Some(b), Step(s, Click(a)).deleted)
  {
  }

  /** A step deletes nothing, or exactly the id that was armed. */
  lemma DeletesOnlyArmed(s: Confirm, e: Event)
    ensures Step(s, e).deleted == s.deleted ||
            (e.Click? && s.armed == Some(e.id) && Step(s, e).deleted == s.deleted + [e.id])
  {
  }

  /** The state after a sequence of events. */
  function Run(s: Confirm, es: seq<Event>): (r: Confirm)
    ensures s.deleted <= r.deleted
    decreases |es|
  {
    if |es| == 0 then s else Run(Step(s, es[0]), es[1..])
  }

  function Clicks(es: seq<Event>): (n: nat)
    ensures n <= |es|
    decreases |es|
  {
    if |es| == 0 then 0 else (if es[0].Click? then 1 else 0) + Clicks(es[1..])
  }

  function ArmedCount(s: Confirm): nat {
    if s.armed.Some? then 1 else 0
  }

  /** Every deletion costs two clicks: after any sequence of events at
      most half of the clicks have deleted something. */
  lemma {:induction false} TwoClicksPerDeletion(s: Confirm, es: seq<Event>)
    ensures 2 * |Run(s, es).deleted| + ArmedCount(Run(s, es)) <= 2 * |s.deleted| + ArmedCount(s) + Clicks(es)
    decreases |es|
  {
    if |es| > 0 {
      TwoClicksPerDeletion(Step(s, es[0]), es[1..]);
    }
  }

  /** The component's state. */
  class DeleteConfirm {
    var deleteConfirm: Option<string>
    var deleted: seq<string>

    function State(): Confirm
      reads this
    {
      Confirm(deleteConfirm, deleted)
    }

    constructor ()
      ensures State() == Initial
    {
      deleteConfirm := None;
      deleted := [];
    }

    /** `handleDeleteClick`; `startsTimer` is whether a reset is scheduled. */
    method HandleDeleteClick(id: string) returns (startsTimer: bool)
      modifies this
      ensures State() == Step(old(State()), Click(id))
      ensures startsTimer <==> old(deleteConfirm) != Some(id)
    {
      if deleteConfirm == Some(id) {
        deleted := deleted + [id];
        deleteConfirm := None;
        startsTimer := false;
      } else {
        deleteConfirm := Some(id);
        startsTimer := true;
      }
    }

    /** The scheduled `setDeleteConfirm(null)`. */
    method TimeoutFires()
      modifies this
      ensures State() == Step(old(State()), Timeout)
    {
      deleteConfirm := None;
    }
  }

  // ---------------------------------------------------------------- column texts

  /** `getStatusText`. */
  function StatusText(status: Option<int>): (r: string)
    ensures r == "Unbekannt" <==> !(status.Some? && 1 <= status.value <= 6)
    ensures status == Some(1) ==> r == "Idee eingereicht"
    ensures status == Some(2) ==> r == "Idee wird ITOT-Board vorgestellt"
    ensures status == Some(3) ==> r == "ITOT-Board Bewertung abgeschlossen"
    ensures status == Some(4) ==> r == "In Umsetzung"
    ensures status == Some(5) ==> r == "Abgeschlossen"
    ensures status == Some(6) ==> r == "Abgelehnt"
  {
    match status
    case Some(1) => "Idee eingereicht"
    case Some(2) => "Idee wird ITOT-Board vorgestellt"
    case Some(3) => "ITOT-Board Bewertung abgeschlossen"
    case Some(4) => "In Umsetzung"
    case Some(5) => "Abgeschlossen"
    case Some(6) => "Abgelehnt"
    case _ => "Unbekannt"
  }

  /** `getStatusBadgeClass`. */
  function StatusBadgeClass(status: Option<int>): (r: string)
    ensures r == "badge-ghost" <==> !(status.Some? && 1 <= status.value <= 6)
    ensures status == Some(1) ==> r == "badge-neutral"
    ensures status == Some(2) ==> r == "badge-warning"
    ensures status == Some(3) ==> r == "badge-success"
    ensures status == Some(4) ==> r == "badge-info"
    ensures status == Some(5) ==> r == "badge-success badge-outline"
    ensures status == Some(6) ==> r == "badge-error"
  {
    match status
    case Some(1) => "badge-neutral"
    case Some(2) => "badge-warning"
    case Some(3) => "badge-success"
    case Some(4) => "badge-info"
    case Some(5) => "badge-success badge-outline"
    case Some(6) => "badge-error"
    case _ => "badge-ghost"
  }

  /** `getTypText`. */
  function TypText(typ: Option<int>): (r: string)
    ensures r == "-" <==> !(typ.Some? && 1 <= typ.value <= 3)
    ensures typ == Some(1) ==> r == "Idee"
    ensures typ == Some(2) ==> r == "Vorhaben"
    ensures typ == Some(3) ==> r == "Projekt"
  {
    match typ
    case Some(1) => "Idee"
    case Some(2) => "Vorhaben"
    case Some(3) => "Projekt"
    case _ => "-"
  }

  /** The status text tells the six codes apart, and so does the badge. */
  lemma StatusColumnsDistinguishCodes(a: int, b: int)
    requires 1 <= a <= 6 && 1 <= b <= 6 && a != b
    ensures StatusText(Some(a)) != StatusText(Some(b))
    ensures StatusBadgeClass(Some(a)) != StatusBadgeClass(Some(b))
  {
  }

  // ---------------------------------------------------------------- rendering

  datatype View<R> = Loading | ErrorAlert(message: string) | EmptyNotice | Table(rows: seq<R>)

  /** The component's early returns: loading, then a (non-empty) error,
      then the empty notice, then the table. */
  function Render<R>(records: seq<R>, isLoading: bool, error: Option<string>): (v: View<R>)
    ensures isLoading ==> v.Loading?
    ensures !isLoading && error.Some? && error.value != "" ==> v == ErrorAlert(error.value)
    ensures v.EmptyNotice? <==> !isLoading && (error.None? || error.value == "") && |records| == 0
    ensures v.Table? <==> !isLoading && (error.None? || error.value == "") && |records| > 0
    ensures v.Table? ==> v.rows == records
  {
    if isLoading then Loading
    else if error.Some? && error.value != "" then ErrorAlert(error.value)
    else if |records| == 0 then EmptyNotice
    else Table(records)
  }
}
