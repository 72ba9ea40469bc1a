/** The four phases of the idea-to-solution process and the table that
    maps each lifecycle-status picklist code to its label, phase and badge
    colours (lib/stageConfig.ts). */
module StageConfig {
  import opened Wrappers

  datatype Phase = Initialisierung | AnalyseBewertung | Planung | Umsetzung

  /** The phase's display name. */
  function PhaseName(p: Phase): string {
    match p
    case Initialisierung => "Initialisierung"
    case AnalyseBewertung => "Analyse & Bewertung"
    case Planung => "Planung"
    case Umsetzung => "Umsetzung"
  }

  /** `BPF_PHASES`, in process order. */
  const BpfPhases: seq<Phase> := [Initialisierung, AnalyseBewertung, Planung, Umsetzung]

  datatype PhaseStyle = PhaseStyle(iconName: string, colorClass: string, bgClass: string, description: string)

  /** `PHASE_CONFIG`. */
  function PhaseConfig(p: Phase): PhaseStyle {
    match p
    case Initialisierung => PhaseStyle("Lightbulb", "text-blue-600", "bg-blue-100", "Neue Ideen werden eingereicht und initial geprüft")
    case AnalyseBewertung => PhaseStyle("Search", "text-amber-600", "bg-amber-100", "Detaillierte Analyse und Bewertung durch ITOT-Board")
    case Planung => PhaseStyle("FolderKanban", "text-violet-600", "bg-violet-100", "Konkrete Planung und Aufnahme ins Portfolio")
    case Umsetzung => PhaseStyle("Rocket", "text-green-600", "bg-green-100", "Aktive Umsetzung und Abschluss")
  }

  datatype StatusEntry = StatusEntry(statusLabel: string, phase: Phase, colorClass: string, bgClass: string)

  function Init(name: string): StatusEntry { StatusEntry(name, Initialisierung, "text-blue-700", "bg-blue-100") }
  function Analyse(name: string): StatusEntry { StatusEntry(name, AnalyseBewertung, "text-amber-700", "bg-amber-100") }
  function Plan(name: string): StatusEntry { StatusEntry(name, Planung, "text-violet-700", "bg-violet-100") }
  function Build(name: string): StatusEntry { StatusEntry(name, Umsetzung, "text-green-700", "bg-green-100") }

  /** `LIFECYCLE_STATUS_MAP`. */
  const LifecycleStatusMap: map<int, StatusEntry> := map[
    562520000 := Init("eingereicht"),
    562520001 := Init("Idee in Qualitätsprüfung"),
    562520002 := Init("Idee zur Überarbeitung an Ideengeber"),
    562520009 := Analyse("Idee in Detailanalyse"),
    562520003 := Analyse("Genehmigt"),
    562520004 := Analyse("Abgelehnt"),
    562520005 := Analyse("Idee wird ITOT-Board vorgestellt"),
    562520006 := Plan("Idee in Projektportfolio aufgenommen"),
    562520007 := Plan("Idee in Quartalsplanung aufgenommen"),
    562520008 := Plan("Idee in Wochenplanung aufgenommen"),
    562520010 := Build("In Umsetzung"),
    562520011 := Build("Abgeschlossen")
  ]

  const Unknown: string := "Unbekannt"
  const GrayText: string := "text-gray-500"
  const GrayBg: string := "bg-gray-100"

  /** `getStatusLabel`; `None` is an `undefined` code. */
  function StatusLabel(code: Option<int>): (r: string)
    ensures r == Unknown <==> code.None? || code.value !in LifecycleStatusMap
    ensures code.Some? && code.value in LifecycleStatusMap ==> r == LifecycleStatusMap[code.value].statusLabel
  {
    if code.Some? && code.value in LifecycleStatusMap then LifecycleStatusMap[code.value].statusLabel else Unknown
  }

  /** `getPhaseForStatus`. */
  function PhaseForStatus(code: Option<int>): (r: Option<Phase>)
    ensures r.None? <==> code.None? || code.value !in LifecycleStatusMap
    ensures r.Some? ==> r.value == LifecycleStatusMap[code.value].phase
  {
    if code.Some? && code.value in LifecycleStatusMap then Some(LifecycleStatusMap[code.value].phase) else None
  }

  /** `getStatusClasses`: (colour class, background class). */
  function StatusClasses(code: Option<int>): (r: (string, string))
    ensures r == (GrayText, GrayBg) <==> code.None? || code.value !in LifecycleStatusMap
    ensures code.Some? && code.value in LifecycleStatusMap ==>
      r == (LifecycleStatusMap[code.value].colorClass, LifecycleStatusMap[code.value].bgClass)
  {
    if code.Some? && code.value in LifecycleStatusMap
    then (LifecycleStatusMap[code.value].colorClass, LifecycleStatusMap[code.value].bgClass)
    else (GrayText, GrayBg)
  }

  /** The known codes are exactly 562520000 to 562520011. */
  lemma StatusCodes()
    ensures forall c :: c in LifecycleStatusMap <==> 562520000 <= c <= 562520011
  {
  }

  /** The phase of each code. */
  lemma PhaseOfEachCode(c: int)
    ensures 562520000 <= c <= 562520002 ==> PhaseForStatus(Some(c)) == Some(Initialisierung)
    ensures c in {562520003, 562520004, 562520005, 562520009} ==> PhaseForStatus(Some(c)) == Some(AnalyseBewertung)
    ensures 562520006 <= c <= 562520008 ==> PhaseForStatus(Some(c)) == Some(Planung)
    ensures 562520010 <= c <= 562520011 ==> PhaseForStatus(Some(c)) == Some(Umsetzung)
  {
  }

  /** Statuses of the same phase share their badge colours, and the badge
      background is the phase's background. */
  lemma SamePhaseSameClasses(a: int, b: int)
    requires a in LifecycleStatusMap && b in LifecycleStatusMap
    requires LifecycleStatusMap[a].phase == LifecycleStatusMap[b].phase
    ensures StatusClasses(Some(a)) == StatusClasses(Some(b))
    ensures StatusClasses(Some(a)).1 == PhaseConfig(LifecycleStatusMap[a].phase).bgClass
  {
  }

  /** Different codes have different labels, so the label identifies the
      code. */
  lemma LabelsDistinct(a: int, b: int)
    requires a in LifecycleStatusMap && b in LifecycleStatusMap && a != b
    ensures StatusLabel(Some(a)) != StatusLabel(Some(b))
  {
  }

  /** Every phase has at least one status. */
  lemma EveryPhaseUsed(p: Phase)
    ensures exists c :: c in LifecycleStatusMap && LifecycleStatusMap[c].phase == p
  {
    match p
    case Initialisierung => assert LifecycleStatusMap[562520000].phase == p;
    case AnalyseBewertung => assert LifecycleStatusMap[562520003].phase == p;
    case Planung => assert LifecycleStatusMap[562520006].phase == p;
    case Umsetzung => assert LifecycleStatusMap[562520010].phase == p;
  }

  /** The twelve labels, in code order. */
  function LabelsInCodeOrder(): (r: seq<string>)
    ensures |r| == 12
    ensures forall i :: 0 <= i < 12 ==> r[i] == LifecycleStatusMap[562520000 + i].statusLabel
  {
    seq(12, i requires 0 <= i < 12 => LifecycleStatusMap[562520000 + i].statusLabel)
  }
}
