/** The searchable multi-select (components/ui/SearchableSelect.tsx): the
    options shown for a search query, the selected options, the selection
    changes the component reports through `onChange`, and the trigger's
    text. The selection is the list of selected option values. */
module SearchableSelect {
  import opened Wrappers
  import Text
  import Seqs

  datatype SelectOption = SelectOption(value: string, optionLabel: string)

  /** The label matches the query, ignoring case. */
  predicate Matches(o: SelectOption, query: string) {
    Text.Contains(Text.Lower(o.optionLabel), Text.Lower(query))
  }

  /** `filteredOptions`: the options whose lower-cased label contains the
      lower-cased query, in the options' order. */
  function FilteredOptions(options: seq<SelectOption>, query: string): (r: seq<SelectOption>)
    ensures forall i :: 0 <= i < |r| ==> r[i] in options && Matches(r[i], query)
    ensures forall i :: 0 <= i < |options| && Matches(options[i], query) ==> options[i] in r
  {
    Seqs.Filter(options, o => Matches(o, query))
  }

  /** The filtered options keep the options' order. */
  lemma FilteredInOrder(options: seq<SelectOption>, query: string)
    ensures Seqs.IsSubsequence(FilteredOptions(options, query), options)
  {
    Seqs.FilterIsSubsequence(options, o => Matches(o, query));
  }

  /** An empty query shows every option. */
  lemma EmptyQueryShowsAll(options: seq<SelectOption>)
    ensures FilteredOptions(options, "") == options
  {
    forall i | 0 <= i < |options| ensures Matches(options[i], "") {
      Text.ContainsEmpty(Text.Lower(options[i].optionLabel));
    }
    Seqs.FilterAll(options, o => Matches(o, ""));
  }

  /** `selectedOptions`: the options whose value is selected. */
  function SelectedOptions(options: seq<SelectOption>, selection: seq<string>): (r: seq<SelectOption>)
    ensures forall i :: 0 <= i < |r| ==> r[i] in options && r[i].value in selection
    ensures forall i :: 0 <= i < |options| && options[i].value in selection ==> options[i] in r
  {
    Seqs.Filter(options, (o: SelectOption) => o.value in selection)
  }

  /** The selected options follow the options list, not the order in which
      the values were selected. */
  lemma SelectedFollowOptionsOrder(options: seq<SelectOption>, selection: seq<string>)
    ensures Seqs.IsSubsequence(SelectedOptions(options, selection), options)
  {
    Seqs.FilterIsSubsequence(options, (o: SelectOption) => o.value in selection);
  }

  lemma SelectedOrderExample()
    ensures SelectedOptions([SelectOption("a", "A"), SelectOption("b", "B")], ["b", "a"])
         == [SelectOption("a", "A"), SelectOption("b", "B")]
  {
  }

  /** The ways the component changes the selection. */
  datatype Change =
    | ToggleOption(v: string)   // a click on an option
    | RemoveOption(v: string)   // the cross on a selected chip
    | HandleClear               // the clear button
    | DeselectAll               // "Alle abwählen"

  /** The value the component passes to `onChange`. */
  function OnChange(selection: seq<string>, c: Change): (r: seq<string>)
    ensures c.ToggleOption? && c.v in selection ==> c.v !in r && forall x :: x != c.v ==> (x in r <==> x in selection)
    ensures c.ToggleOption? && c.v !in selection ==> r == selection + [c.v]
    ensures c.RemoveOption? ==> c.v !in r && Seqs.IsSubsequence(r, selection) && forall x :: x != c.v ==> (x in r <==> x in selection)
    ensures c.HandleClear? || c.DeselectAll? ==> r == []
  {
    match c
    case ToggleOption(v) => Seqs.Toggle(selection, v)
    case RemoveOption(v) => Seqs.RemoveAll(selection, v)
    case HandleClear => []
    case DeselectAll => []
  }

  /** Every change keeps a duplicate-free selection duplicate-free. */
  lemma OnChangeNoDup(selection: seq<string>, c: Change)
    requires Seqs.NoDup(selection)
    ensures Seqs.NoDup(OnChange(selection, c))
  {
    match c
    case ToggleOption(v) => Seqs.ToggleNoDup(selection, v);
    case RemoveOption(v) => Seqs.RemoveAllNoDup(selection, v);
    case HandleClear =>
    case DeselectAll =>
  }

  /** Toggling one value twice: an unselected value leaves the selection as
      it was; a selected one is moved to the end. Either way the same
      values stay selected, without duplicates. */
  lemma ToggleTwice(selection: seq<string>, v: string)
    requires Seqs.NoDup(selection)
    ensures v !in selection ==> OnChange(OnChange(selection, ToggleOption(v)), ToggleOption(v)) == selection
    ensures forall x :: x in OnChange(OnChange(selection, ToggleOption(v)), ToggleOption(v)) <==> x in selection
    ensures Seqs.NoDup(OnChange(OnChange(selection, ToggleOption(v)), ToggleOption(v)))
  {
    Seqs.ToggleTwiceSameElements(selection, v);
    if v !in selection {
      Seqs.ToggleTwiceAbsent(selection, v);
    } else {
      Seqs.ToggleNoDup(selection, v);
      Seqs.ToggleNoDup(Seqs.Toggle(selection, v), v);
    }
  }

  /** Removing a value that is not selected changes nothing. */
  lemma RemoveUnselected(selection: seq<string>, v: string)
    requires v !in selection
    ensures OnChange(selection, RemoveOption(v)) == selection
  {
    Seqs.RemoveAbsent(selection, v);
  }

  const CountSuffix: string := " ausgewählt"

  /** `getDisplayText`: nothing, the one label, or the count. */
  function DisplayText(options: seq<SelectOption>, selection: seq<string>): (r: Option<string>)
    ensures r.None? <==> |SelectedOptions(options, selection)| == 0
    ensures |SelectedOptions(options, selection)| == 1 ==> r == Some(SelectedOptions(options, selection)[0].optionLabel)
    ensures |SelectedOptions(options, selection)| >= 2 ==>
      r.Some? && |r.value| > |CountSuffix| && r.value[|r.value| - |CountSuffix|..] == CountSuffix &&
      Text.AllDigits(r.value[..|r.value| - |CountSuffix|])
  {
    var selected := SelectedOptions(options, selection);
    if |selected| == 0 then None
    else if |selected| == 1 then Some(selected[0].optionLabel)
    else
      var t := Text.NatToString(|selected|) + CountSuffix;
      assert t[..|t| - |CountSuffix|] == Text.NatToString(|selected|);
      assert t[|t| - |CountSuffix|..] == CountSuffix;
      Some(t)
  }

  /** For several selected options the text reads back as their count. */
  lemma DisplayTextCount(options: seq<SelectOption>, selection: seq<string>)
    requires |SelectedOptions(options, selection)| >= 2
    ensures Text.ParseNat(DisplayText(options, selection).value[..|DisplayText(options, selection).value| - |CountSuffix|])
         == |SelectedOptions(options, selection)|
  {
    var n := |SelectedOptions(options, selection)|;
    var t := DisplayText(options, selection).value;
    assert t == Text.NatToString(n) + CountSuffix;
    assert t[..|t| - |CountSuffix|] == Text.NatToString(n);
    Text.ParseNatToString(n);
  }
}
