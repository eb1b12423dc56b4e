/** The recurrence page's view-model: a list of recurrence options of which
    exactly the selected one carries the selection flag, whether the selection
    repeats at all, and the command that hands the selection back. */
module RecurrenceEdit {
  import opened Scheduler

  /** One option of the recurrence list. `kind` is None for the "never"
      option; `settings` stands for the type-specific fields the option
      edits (interval, week days, day of month). */
  class RecurrenceItem {
    const kind: Option<RecurrenceType>
    var settings: int
    var isSelected: bool

    constructor (kind: Option<RecurrenceType>)
      ensures this.kind == kind && settings == 0 && !isSelected
    {
      this.kind := kind;
      settings := 0;
      isSelected := false;
    }
  }

  /** The objects among the options, as a frame. */
  function Items(types: seq<RecurrenceItem>): set<object> {
    set i | 0 <= i < |types| :: types[i]
  }

  class RecurrenceEditor {
    const types: seq<RecurrenceItem>
    const ending: Ending
    /** Whether a selection callback was given. */
    const hasCallback: bool
    var selected: RecurrenceItem?

    /** Exactly the selected option is flagged among the options. */
    ghost predicate Valid()
      reads this, Items(types), selected
    {
      (selected != null ==> selected.isSelected) &&
      forall i :: 0 <= i < |types| ==> (types[i].isSelected <==> types[i] == selected)
    }

    /** The constructor clears every option's flag, then selects the given
        option, or the first one of the list when none is given. */
    constructor (types: seq<RecurrenceItem>, ending: Ending, selectedType: RecurrenceItem?, hasCallback: bool)
      requires selectedType != null || |types| > 0
      modifies Items(types), selectedType
      ensures Valid()
      ensures this.types == types && this.ending == ending && this.hasCallback == hasCallback
      ensures selected == if selectedType != null then selectedType else types[0]
      ensures forall i :: 0 <= i < |types| ==> types[i].settings == old(types[i].settings)
    {
      this.types := types;
      this.ending := ending;
      this.hasCallback := hasCallback;
      selected := null;
      new;
      var i := 0;
      while i < |types|
        invariant 0 <= i <= |types|
        invariant forall j :: 0 <= j < i ==> !types[j].isSelected
        invariant forall j :: 0 <= j < |types| ==> types[j].settings == old(types[j].settings)
        modifies Items(types)
      {
        types[i].isSelected := false;
        i := i + 1;
      }
      var chosen := if selectedType != null then selectedType else types[0];
      chosen.isSelected := true;
      selected := chosen;
    }

    /** HasRecurrence: the selection is not the "never" option (a null
        selection is not one either). */
    predicate HasRecurrence()
      reads this
    {
      selected == null || selected.kind.Some?
    }

    /** The SelectedRecurrenceType setter: when the value changes, the old
        option's flag is cleared and the new one's set. */
    method SetSelected(value: RecurrenceItem?)
      requires Valid()
      modifies this, selected, value
      ensures Valid()
      ensures selected == value
      ensures old(selected) != null && old(selected) != value ==> !old(selected).isSelected
      ensures forall i :: 0 <= i < |types| ==> types[i].settings == old(types[i].settings)
      ensures value != null ==> value.settings == old(value.settings)
    {
      if value != selected {
        if selected != null {
          selected.isSelected := false;
        }
        if value != null {
          value.isSelected := true;
        }
        selected := value;
      }
    }

    /** The select command: the callback is invoked with exactly the current
        selection; without a callback nothing happens (None). */
    method Execute() returns (passed: Option<RecurrenceItem?>)
      ensures passed == if hasCallback then Some(selected) else None
    {
      if hasCallback {
        passed := Some(selected);
      } else {
        passed := None;
      }
    }
  }

  /** Two distinct options can never both be flagged while the list is valid. */
  lemma AtMostOneSelected(e: RecurrenceEditor, i: int, j: int)
    requires e.Valid()
    requires 0 <= i < |e.types| && 0 <= j < |e.types|
    requires e.types[i].isSelected && e.types[j].isSelected
    ensures e.types[i] == e.types[j]
  {
  }
}
