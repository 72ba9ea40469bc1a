/** The create/edit form (components/dataverse/DigitalisierungsvorhabenForm.tsx):
    the form data it starts from, the three change handlers, the submit
    with its reset rule, and the status badge. Form data is the input
    object the service receives; a field set to `undefined` is a key
    holding `Undefined`. */
module VorhabenForm {
  import opened Wrappers
  import Text
  import Json
  import DigitalisierungsvorhabenService

  type FormData = DigitalisierungsvorhabenService.Input

  /** The text fields the edit form copies with a `|| ""` default. */
  const TextFields: set<string> := {
    "cr6df_name", "cr6df_beschreibung", "cr6df_itotboard_begruendung", "cr6df_detailanalyse_ergebnis"
  }

  /** The numeric fields the edit form copies as they are. */
  const NumberFields: set<string> := {
    "cr6df_typ", "cr6df_komplexitaet", "cr6df_kritikalitaet", "cr6df_lifecyclestatus",
    "cr6df_prioritat", "cr6df_detailanalyse_personentage"
  }

  /** The form of a new record. */
  const EmptyForm: FormData := map["cr6df_name" := Json.Str(""), "cr6df_beschreibung" := Json.Str("")]

  /** A record's property, `undefined` when absent. */
  function Field(record: map<string, Json.Value>, k: string): Json.Value {
    if k in record then record[k] else Json.Undefined
  }

  /** The form data for an edit record. */
  function EditForm(record: map<string, Json.Value>): (f: FormData)
    ensures f.Keys == TextFields + NumberFields
    ensures forall k :: k in TextFields ==> f[k] == (if Json.Truthy(Field(record, k)) then Field(record, k) else Json.Str(""))
    ensures forall k :: k in NumberFields ==> f[k] == Field(record, k)
  {
    map k | k in TextFields + NumberFields ::
      if k in TextFields then (if Json.Truthy(Field(record, k)) then Field(record, k) else Json.Str(""))
      else Field(record, k)
  }

  /** The effect on `editRecord`: edit data, or the empty form. */
  function InitialForm(editRecord: Option<map<string, Json.Value>>): (f: FormData)
    ensures editRecord.None? ==> f == EmptyForm
    ensures editRecord.Some? ==> f == EditForm(editRecord.value)
  {
    if editRecord.Some? then EditForm(editRecord.value) else EmptyForm
  }

  /** An edit record whose text fields are all set is copied unchanged on
      the ten fields. */
  lemma EditCopiesSetFields(record: map<string, Json.Value>)
    requires forall k :: k in TextFields ==> k in record && Json.Truthy(record[k])
    requires forall k :: k in NumberFields ==> k in record
    ensures forall k :: k in TextFields + NumberFields ==> EditForm(record)[k] == record[k]
  {
  }

  // ---------------------------------------------------------------- parseInt

  /** The number of leading decimal digits. */
  function DigitPrefix(s: string): (n: nat)
    ensures n <= |s|
    ensures Text.AllDigits(s[..n])
    ensures n < |s| ==> !Text.IsDigit(s[n])
    decreases |s|
  {
    if |s| > 0 && Text.IsDigit(s[0]) then
      var n := 1 + DigitPrefix(s[1..]);
      assert s[..n] == [s[0]] + s[1..][..n - 1];
      n
    else 0
  }

  lemma {:induction false} DigitPrefixAll(s: string)
    requires Text.AllDigits(s)
    ensures DigitPrefix(s) == |s|
    decreases |s|
  {
    if |s| > 0 {
      DigitPrefixAll(s[1..]);
    }
  }

  /** `parseInt(value)` for a string without leading blanks: an optional
      sign and the longest digit prefix, `NaN` when there is none. */
  function ParseInt(value: string): (r: Json.Value)
    ensures r.NaN? || r.Num?
  {
    var negative := |value| > 0 && value[0] == '-';
    var rest := if |value| > 0 && (value[0] == '-' || value[0] == '+') then value[1..] else value;
    var n := DigitPrefix(rest);
    if n == 0 then Json.NaN
    else Json.Num(if negative then 0 - (Text.ParseNat(rest[..n]) as int) else Text.ParseNat(rest[..n]))
  }

  /** A rendered integer, such as an option's value, parses back. */
  lemma ParseIntRendered(i: int)
    ensures ParseInt(Text.IntToString(i)) == Json.Num(i)
  {
    var s := Text.IntToString(i);
    var digits := if i < 0 then Text.NatToString(-i) else Text.NatToString(i);
    assert (if |s| > 0 && (s[0] == '-' || s[0] == '+') then s[1..] else s) == digits by {
      if i >= 0 {
        assert Text.IsDigit(s[0]);
      }
    }
    DigitPrefixAll(digits);
    assert digits[..|digits|] == digits;
    if i < 0 {
      Text.ParseNatToString(-i);
    } else {
      Text.ParseNatToString(i);
    }
  }

  lemma ParseIntExamples()
    ensures ParseInt("12abc") == Json.Num(12)
    ensures ParseInt("abc") == Json.NaN
  {
    assert DigitPrefix("12abc") == 2 by {
      assert "12abc"[1..] == "2abc";
      assert "2abc"[1..] == "abc";
    }
    assert "12abc"[..2] == "12";
    assert Text.ParseNat("12") == 12 by {
      assert "12"[..1] == "1";
      assert "1"[..0] == "";
    }
  }

  // ---------------------------------------------------------------- handlers

  /** `handleSelectChange` and `handleNumberChange`: an empty value clears
      the field to `undefined`, anything else is parsed. */
  function NumberChange(f: FormData, name: string, value: string): (r: FormData)
    ensures r.Keys == f.Keys + {name}
    ensures r[name] == (if value == "" then Json.Undefined else ParseInt(value))
    ensures forall k :: k in f && k != name ==> r[k] == f[k]
  {
    f[name := if value == "" then Json.Undefined else ParseInt(value)]
  }

  /** `handleTextChange`: the raw string, even when empty. */
  function TextChange(f: FormData, name: string, value: string): (r: FormData)
    ensures r.Keys == f.Keys + {name}
    ensures r[name] == Json.Str(value)
    ensures forall k :: k in f && k != name ==> r[k] == f[k]
  {
    f[name := Json.Str(value)]
  }

  /** Choosing a picklist option stores that option's code. */
  lemma SelectStoresCode(f: FormData, name: string, code: int)
    ensures NumberChange(f, name, Text.IntToString(code))[name] == Json.Num(code)
  {
    ParseIntRendered(code);
  }

  /** Clearing a field keeps it in the data as `undefined`, which the
      service's cleaning then drops instead of sending. */
  lemma ClearedFieldIsNotSent(f: FormData, name: string)
    ensures name in NumberChange(f, name, "")
    ensures name !in DigitalisierungsvorhabenService.Cleaned(NumberChange(f, name, ""))
    ensures name !in DigitalisierungsvorhabenService.Cleaned(TextChange(f, name, ""))
  {
  }

  /** The form's state, with the data passed to `onSubmit` so far. */
  class Form {
    var formData: FormData
    var isSubmitting: bool
    var submitted: seq<FormData>

    constructor (editRecord: Option<map<string, Json.Value>>)
      ensures formData == InitialForm(editRecord) && !isSubmitting && submitted == []
    {
      formData := InitialForm(editRecord);
      isSubmitting := false;
      submitted := [];
    }

    method HandleSelectChange(name: string, value: string)
      modifies this
      ensures formData == NumberChange(old(formData), name, value)
      ensures isSubmitting == old(isSubmitting) && submitted == old(submitted)
    {
      var v := if value == "" then Json.Undefined else ParseInt(value);
      formData := formData[name := v];
    }

    method HandleNumberChange(name: string, value: string)
      modifies this
      ensures formData == NumberChange(old(formData), name, value)
      ensures isSubmitting == old(isSubmitting) && submitted == old(submitted)
    {
      var v := if value == "" then Json.Undefined else ParseInt(value);
      formData := formData[name := v];
    }

    method HandleTextChange(name: string, value: string)
      modifies this
      ensures formData == TextChange(old(formData), name, value)
      ensures isSubmitting == old(isSubmitting) && submitted == old(submitted)
    {
      formData := formData[name := Json.Str(value)];
    }

    /** `handleSubmit`, given whether `onSubmit` resolved: the data is
        submitted, a resolved create resets the form, and `isSubmitting`
        ends false either way; `threw` is the rejection passed on. */
    method HandleSubmit(editMode: bool, resolved: bool) returns (threw: bool)
      modifies this
      ensures submitted == old(submitted) + [old(formData)]
      ensures formData == (if resolved && !editMode then EmptyForm else old(formData))
      ensures !isSubmitting
      ensures threw == !resolved
    {
      isSubmitting := true;
      submitted := submitted + [formData];
      if resolved && !editMode {
        formData := EmptyForm;
      }
      isSubmitting := false;
      threw := !resolved;
    }
  }

  // ---------------------------------------------------------------- status badge

  datatype Badge = Badge(text: string, cls: string)

  /** `getStatusBadge`. */
  function StatusBadge(status: Option<int>): (b: Badge)
    ensures b.text == "Keine Phase" <==> !(status.Some? && 562520000 <= status.value <= 562520007)
    ensures status == Some(562520000) ==> b.text == "Eingereicht"
    ensures status == Some(562520001) ==> b.text == "ITOT-Board"
    ensures status == Some(562520002) ==> b.text == "Bewertet"
    ensures status == Some(562520003) ==> b.text == "In Umsetzung"
    ensures status == Some(562520004) ==> b.text == "Abgeschlossen"
    ensures status == Some(562520005) ==> b.text == "Abgelehnt"
    ensures status == Some(562520006) ==> b.text == "Pausiert"
    ensures status == Some(562520007) ==> b.text == "Archiviert"
  {
    match status
    case Some(562520000) => Badge("Eingereicht", "bg-gray-100 text-gray-600")
    case Some(562520001) => Badge("ITOT-Board", "bg-amber-100 text-amber-700")
    case Some(562520002) => Badge("Bewertet", "bg-green-100 text-green-700")
    case Some(562520003) => Badge("In Umsetzung", "bg-blue-100 text-blue-700")
    case Some(562520004) => Badge("Abgeschlossen", "bg-green-50 text-green-600 border border-green-200")
    case Some(562520005) => Badge("Abgelehnt", "bg-red-100 text-red-700")
    case Some(562520006) => Badge("Pausiert", "bg-yellow-100 text-yellow-700")
    case Some(562520007) => Badge("Archiviert", "bg-gray-50 text-gray-500")
    case _ => Badge("Keine Phase", "bg-violet-100 text-violet-700")
  }

  /** The eight codes get eight different badges. */
  lemma StatusBadgeDistinct(a: int, b: int)
    requires 562520000 <= a <= 562520007 && 562520000 <= b <= 562520007 && a != b
    ensures StatusBadge(Some(a)).text != StatusBadge(Some(b)).text
  {
  }
}
