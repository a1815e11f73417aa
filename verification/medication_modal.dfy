/** The add/edit medication form: its state, the list edits bound to its
    buttons, how it is filled when it opens, and the validation that turns
    it into the record handed to `onSave`. Rendering is not modelled. */
module MedicationModal {
  import opened Wrappers
  import opened JsText
  import opened JsArrays
  import opened Database

  /** `selectedDays` after pressing a day button: a selected day is removed
      (every occurrence), an unselected one appended. */
  function Toggled(selectedDays: seq<int>, day: int): (r: seq<int>)
    ensures day in selectedDays ==> day !in r && forall d :: d in r <==> d in selectedDays && d != day
    ensures day in selectedDays ==> r == Filter(selectedDays, d => d != day)
    ensures day !in selectedDays ==> r == selectedDays + [day]
  {
    if day in selectedDays then Filter(selectedDays, d => d != day) else selectedDays + [day]
  }

  /** Pressing the same day twice restores which days are selected. */
  lemma ToggleTwice(selectedDays: seq<int>, day: int)
    ensures forall d :: d in Toggled(Toggled(selectedDays, day), day) <==> d in selectedDays
  {
  }

  /** Toggling never selects a day twice. */
  lemma ToggleKeepsDistinct(selectedDays: seq<int>, day: int)
    requires Distinct(selectedDays)
    ensures Distinct(Toggled(selectedDays, day))
  {
    if day in selectedDays {
      FilterDistinct(selectedDays, d => d != day);
    }
  }

  /** The test of `t.trim() !== ''`. */
  predicate NonBlank(t: string) {
    Trim(t) != ""
  }

  /** The times kept by the save: those that are not all whitespace, and
      none are kept exactly when every entry is blank. */
  lemma ValidTimes(times: seq<string>)
    ensures forall t :: t in Filter(times, NonBlank) ==> t in times && !AllWhitespace(t)
    ensures Filter(times, NonBlank) == [] <==> forall t :: t in times ==> AllWhitespace(t)
  {
    var valid := Filter(times, NonBlank);
    forall t | t in times && !AllWhitespace(t) ensures t in valid {
      assert NonBlank(t);
    }
  }

  /** `text.trim() || null`. */
  function TrimmedOrNull(text: string): (r: Option<string>)
    ensures r == None <==> AllWhitespace(text)
    ensures r.Some? ==> r.value == Trim(text) && r.value != ""
  {
    var t := Trim(text);
    if t == "" then None else Some(t)
  }

  /** Why a save is refused, in the order the checks are made. */
  datatype SaveError = NameRequired | NoDaySelected | NoTimeGiven {
    /** The alert shown for it. */
    function Message(): string {
      match this
      case NameRequired => "Nome do medicamento é obrigatório"
      case NoDaySelected => "Selecione pelo menos um dia da semana"
      case NoTimeGiven => "Adicione pelo menos um horário"
    }
  }

  /** The record handed to `onSave`. */
  datatype MedicationData = MedicationData(
    name: string,
    dosage: Option<string>,
    notes: Option<string>,
    days: seq<int>,
    times: seq<string>,
    taken: map<string, bool>)

  /** The form's state. */
  class MedicationForm {
    var name: string
    var dosage: string
    var notes: string
    var selectedDays: seq<int>
    var times: seq<string>

    /** There is always at least one time slot on screen. */
    ghost predicate Valid()
      reads this
    {
      |times| > 0
    }

    /** The initial `useState` values. */
    constructor ()
      ensures Valid()
      ensures name == "" && dosage == "" && notes == "" && selectedDays == [] && times == [""]
    {
      name, dosage, notes := "", "", "";
      selectedDays, times := [], [""];
    }

    /** The effect run when the form opens or its inputs change: copy the
        edited medication (an empty time list becomes one blank slot), or
        reset, preselecting the day the caller is viewing. */
    method Initialize(medication: Option<MedicationRow>, selectedDay: Option<int>)
      modifies this
      ensures Valid()
      ensures medication.Some? ==>
        && name == medication.value.name
        && dosage == medication.value.dosage.GetOr("")
        && notes == medication.value.notes.GetOr("")
        && selectedDays == medication.value.days
        && times == (if |medication.value.times| > 0 then medication.value.times else [""])
      ensures medication.None? ==>
        && name == "" && dosage == "" && notes == ""
        && selectedDays == (if selectedDay.Some? then [selectedDay.value] else [])
        && times == [""]
    {
      if medication.Some? {
        var m := medication.value;
        name := m.name;
        dosage := m.dosage.GetOr("");
        notes := m.notes.GetOr("");
        selectedDays := m.days;
        times := if |m.times| > 0 then m.times else [""];
      } else {
        name := "";
        dosage := "";
        notes := "";
        selectedDays := if selectedDay.Some? then [selectedDay.value] else [];
        times := [""];
      }
    }

    method ToggleDay(day: int)
      modifies this`selectedDays
      ensures selectedDays == Toggled(old(selectedDays), day)
    {
      selectedDays := Toggled(selectedDays, day);
    }

    /** Appends one blank slot. */
    method AddTimeSlot()
      requires Valid()
      modifies this`times
      ensures Valid()
      ensures |times| == |old(times)| + 1 && times[..|old(times)|] == old(times) && times[|old(times)|] == ""
    {
      times := times + [""];
    }

    /** Removes slot `index`, but never the last remaining slot. */
    method RemoveTimeSlot(index: int)
      requires Valid()
      modifies this`times
      ensures Valid()
      ensures |old(times)| > 1 ==> times == RemoveAt(old(times), index)
      ensures |old(times)| <= 1 ==> times == old(times)
    {
      if |times| > 1 {
        times := RemoveAt(times, index);
      }
    }

    /** Replaces the text of slot `index`. */
    method UpdateTime(index: int, time: string)
      requires Valid()
      modifies this`times
      ensures Valid()
      ensures times == ReplaceAt(old(times), index, time)
    {
      times := ReplaceAt(times, index, time);
    }

    /** The save button: refuse a blank name, then an empty day selection,
        then a time list with no non-blank entry; otherwise the record with
        trimmed name, dosage and notes (blank ones null), the selected days,
        the non-blank times as typed, and the edited medication's `taken`
        map (empty for a new one). */
    function HandleSave(medication: Option<MedicationRow>): (r: Result<MedicationData, SaveError>)
      reads this
      ensures r == Failure(NameRequired) <==> AllWhitespace(name)
      ensures r == Failure(NoDaySelected) <==> !AllWhitespace(name) && selectedDays == []
      ensures r == Failure(NoTimeGiven) <==>
        !AllWhitespace(name) && selectedDays != [] && forall t :: t in times ==> AllWhitespace(t)
      ensures r.Success? ==>
        && r.value.name == Trim(name) && r.value.name != ""
        && r.value.dosage == TrimmedOrNull(dosage)
        && r.value.notes == TrimmedOrNull(notes)
        && r.value.days == selectedDays && r.value.days != []
        && r.value.times == Filter(times, NonBlank) && r.value.times != []
        && (forall t :: t in r.value.times ==> t in times && !AllWhitespace(t))
        && r.value.taken == (if medication.Some? then medication.value.taken else map[])
    {
      ValidTimes(times);
      if Trim(name) == "" then Failure(NameRequired)
      else if |selectedDays| == 0 then Failure(NoDaySelected)
      else
        var validTimes := Filter(times, NonBlank);
        if |validTimes| == 0 then Failure(NoTimeGiven)
        else
          Success(MedicationData(
            Trim(name),
            TrimmedOrNull(dosage),
            TrimmedOrNull(notes),
            selectedDays,
            validTimes,
            if medication.Some? then medication.value.taken else map[]))
    }
  }
}
