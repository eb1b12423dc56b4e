/** The custom-reminder page's view-model: a number of units, a list of unit
    builders (seconds, minutes, hours, days) of which exactly the selected one
    is flagged, the builders' singular or plural captions, and the command
    that turns the number and the unit into a span. */
module ReminderEdit {
  import opened Times
  import opened Scheduler

  /** TimeSpan's range in whole seconds: Int64.MaxValue and Int64.MinValue
      ticks, divided by the ticks of a second and truncated toward zero. */
  const MaxSeconds: int := 922_337_203_685
  const MinSeconds: int := -922_337_203_685

  /** new TimeSpan(days, hours, minutes, seconds): the span in ticks, or None
      where the constructor throws because the span is out of range. */
  function TimeSpanOf(days: int, hours: int, minutes: int, seconds: int): (span: Option<int>)
    ensures span.Some? <==> MinSeconds <= days * 86400 + hours * 3600 + minutes * 60 + seconds <= MaxSeconds
    ensures span.Some? ==>
      span.value == days * TicksPerDay + hours * TicksPerHour + minutes * TicksPerMinute + seconds * TicksPerSecond
  {
    var totalSeconds := days * 3600 * 24 + hours * 3600 + minutes * 60 + seconds;
    if totalSeconds > MaxSeconds || totalSeconds < MinSeconds then None
    else Some(totalSeconds * TicksPerSecond)
  }

  /** The four build handlers of the default builders. */
  datatype Unit = Seconds | Minutes | Hours | Days

  /** The length of one unit, in seconds. */
  function UnitSeconds(u: Unit): int {
    match u
    case Seconds => 1
    case Minutes => 60
    case Hours => 3600
    case Days => 86400
  }

  /** The handler of a builder applied to a number of units. */
  function BuildSpan(u: Unit, v: int): (span: Option<int>)
    ensures span.Some? <==> MinSeconds <= v * UnitSeconds(u) <= MaxSeconds
    ensures span.Some? ==> span.value == v * UnitSeconds(u) * TicksPerSecond
  {
    match u
    case Seconds => TimeSpanOf(0, 0, 0, v)
    case Minutes => TimeSpanOf(0, 0, v, 0)
    case Hours => TimeSpanOf(0, v, 0, 0)
    case Days => TimeSpanOf(v, 0, 0, 0)
  }

  /** Every span the minutes, seconds and (for small numbers) hours and days
      builders are asked for is in range; a day count above the range is not. */
  lemma BuildRange(v: int)
    ensures 0 <= v <= 2_147_483_647 ==> BuildSpan(Seconds, v).Some? && BuildSpan(Minutes, v).Some?
    ensures 0 <= v <= 10_675_199 ==> BuildSpan(Hours, v).Some? && BuildSpan(Days, v).Some?
    ensures v > 10_675_199 ==> BuildSpan(Days, v).None?
  {
  }

  /** The caption form for a number of units: singular exactly for one. */
  function NameForm(singular: string, plural: string, unitNumber: int): (form: string)
    ensures unitNumber == 1 ==> form == singular
    ensures unitNumber != 1 ==> form == plural
  {
    if unitNumber == 1 then singular else plural
  }

  /** ActualDisplayName: the form followed by " before" when the builder is
      selected (a form that is still null formats as empty), the bare form
      otherwise. */
  function DisplayName(form: Option<string>, selected: bool): (name: Option<string>)
    ensures !selected ==> name == form
    ensures selected ==> name.Some? && |name.value| >= 7
    ensures selected ==> name.value[|name.value| - 7..] == " before"
    ensures selected ==> name.value[..|name.value| - 7] == if form.Some? then form.value else ""
  {
    if selected then Some((if form.Some? then form.value else "") + " before") else form
  }

  class TimeSpanBuilder {
    const singular: string
    const plural: string
    const unit: Unit
    var isSelected: bool
    /** ActualDisplayNameForm; None until the first update. */
    var form: Option<string>

    constructor (singular: string, plural: string, unit: Unit)
      ensures this.singular == singular && this.plural == plural && this.unit == unit
      ensures !isSelected && form.None?
    {
      this.singular := singular;
      this.plural := plural;
      this.unit := unit;
      isSelected := false;
      form := None;
    }

    /** Build: the span of `units` of this builder's unit. */
    function Build(units: int): (span: Option<int>)
      ensures span.Some? ==> span.value == units * UnitSeconds(unit) * TicksPerSecond
      ensures span.None? <==> units * UnitSeconds(unit) > MaxSeconds || units * UnitSeconds(unit) < MinSeconds
    {
      BuildSpan(unit, units)
    }

    method UpdateActualDisplayName(unitNumber: int)
      modifies this
      ensures form == Some(NameForm(singular, plural, unitNumber))
      ensures isSelected == old(isSelected)
    {
      form := Some(if unitNumber == 1 then singular else plural);
    }

    /** ActualDisplayName: the caption shown, with " before" on the selected
        builder only. */
    function ActualDisplayName(): (name: Option<string>)
      reads this
      ensures !isSelected ==> name == form
      ensures isSelected ==> name.Some? && |name.value| >= 7 && name.value[|name.value| - 7..] == " before"
      ensures isSelected ==> name.Some? && name.value[..|name.value| - 7] == if form.Some? then form.value else ""
    {
      DisplayName(form, isSelected)
    }

    method SetIsSelected(value: bool)
      modifies this
      ensures isSelected == value && form == old(form)
    {
      isSelected := value;
    }
  }

  /** TimeSpanBuilder.DefaultBuilders: seconds, minutes, hours and days. The
      source creates them once, in a static field; the model creates them here
      and every editor that falls back to them is passed the same sequence
      (the `defaults` of ReminderEditor's constructor), so those editors share
      the builders, their flags and their captions. */
  method DefaultBuilders() returns (builders: seq<TimeSpanBuilder>)
    ensures |builders| == 4
    ensures builders[0].unit == Seconds && builders[0].singular == "Second" && builders[0].plural == "Seconds"
    ensures builders[1].unit == Minutes && builders[1].singular == "Minute" && builders[1].plural == "Minutes"
    ensures builders[2].unit == Hours && builders[2].singular == "Hour" && builders[2].plural == "Hours"
    ensures builders[3].unit == Days && builders[3].singular == "Day" && builders[3].plural == "Days"
    ensures forall i :: 0 <= i < 4 ==> fresh(builders[i]) && !builders[i].isSelected && builders[i].form.None?
  {
    var second := new TimeSpanBuilder("Second", "Seconds", Seconds);
    var minute := new TimeSpanBuilder("Minute", "Minutes", Minutes);
    var hour := new TimeSpanBuilder("Hour", "Hours", Hours);
    var day := new TimeSpanBuilder("Day", "Days", Days);
    builders := [second, minute, hour, day];
  }

  /** The builders, as a frame. */
  function Builders(bs: seq<TimeSpanBuilder>): set<object> {
    set i | 0 <= i < |bs| :: bs[i]
  }

  /** What the select command did: nothing (no callback), the callback called
      with a span, or an exception. */
  datatype Execution = NotInvoked | Invoked(span: int) | Failed(error: Error)

  class ReminderEditor {
    /** DefaultUnitNumber. */
    static const DefaultUnitNumber: int := 10

    const builders: seq<TimeSpanBuilder>
    const hasCallback: bool
    var unitNumber: int
    var selected: TimeSpanBuilder?

    /** Exactly the selected builder is flagged, and every builder shows the
        caption form for the current number. */
    ghost predicate Valid()
      reads this, Builders(builders), selected
    {
      (selected != null ==> selected.isSelected) &&
      (forall i :: 0 <= i < |builders| ==> (builders[i].isSelected <==> builders[i] == selected)) &&
      (forall i :: 0 <= i < |builders| ==>
        builders[i].form == Some(NameForm(builders[i].singular, builders[i].plural, unitNumber)))
    }

    /** The constructor falls back to the default builders, clears every flag,
        sets the number to 10 and selects the first builder, if any. */
    constructor (timeSpanBuilders: Option<seq<TimeSpanBuilder>>, defaults: seq<TimeSpanBuilder>, hasCallback: bool)
      modifies Builders(if timeSpanBuilders.Some? then timeSpanBuilders.value else defaults)
      ensures builders == if timeSpanBuilders.Some? then timeSpanBuilders.value else defaults
      ensures this.hasCallback == hasCallback
      ensures Valid()
      ensures unitNumber == DefaultUnitNumber
      ensures selected == if |builders| > 0 then builders[0] else null
      ensures forall i :: 0 <= i < |builders| ==> builders[i].form == Some(builders[i].plural)
    {
      builders := if timeSpanBuilders.Some? then timeSpanBuilders.value else defaults;
      this.hasCallback := hasCallback;
      unitNumber := 0;
      selected := null;
      new;
      var i := 0;
      while i < |builders|
        invariant 0 <= i <= |builders|
        invariant forall j :: 0 <= j < i ==> !builders[j].isSelected
        modifies Builders(builders)
      {
        builders[i].SetIsSelected(false);
        i := i + 1;
      }
      unitNumber := DefaultUnitNumber;
      i := 0;
      while i < |builders|
        invariant 0 <= i <= |builders|
        invariant forall j :: 0 <= j < |builders| ==> !builders[j].isSelected
        invariant forall j :: 0 <= j < i ==> builders[j].form == Some(builders[j].plural)
        modifies Builders(builders)
      {
        builders[i].UpdateActualDisplayName(unitNumber);
        i := i + 1;
      }
      if |builders| > 0 {
        builders[0].SetIsSelected(true);
        selected := builders[0];
      }
    }

    /** The UnitNumber setter: a new number re-captions every builder. */
    method SetUnitNumber(value: int)
      requires Valid()
      modifies this, Builders(builders)
      ensures Valid()
      ensures unitNumber == value && selected == old(selected)
      ensures forall i :: 0 <= i < |builders| ==> builders[i].isSelected == old(builders[i].isSelected)
    {
      if value != unitNumber {
        unitNumber := value;
        var i := 0;
        while i < |builders|
          invariant 0 <= i <= |builders|
          invariant forall j :: 0 <= j < |builders| ==> builders[j].isSelected == old(builders[j].isSelected)
          invariant forall j :: 0 <= j < i ==>
            builders[j].form == Some(NameForm(builders[j].singular, builders[j].plural, unitNumber))
          invariant selected != null ==> selected.isSelected
          modifies Builders(builders)
        {
          builders[i].UpdateActualDisplayName(value);
          i := i + 1;
        }
      }
    }

    /** The SelectedBuilder setter: when the value changes, the old builder's
        flag is cleared and the new one's set. */
    method SetSelectedBuilder(value: TimeSpanBuilder?)
      requires Valid()
      modifies this, selected, value
      ensures Valid()
      ensures selected == value && unitNumber == old(unitNumber)
      ensures old(selected) != null && old(selected) != value ==> !old(selected).isSelected
    {
      if value != selected {
        if selected != null {
          selected.SetIsSelected(false);
        }
        if value != null {
          value.SetIsSelected(true);
        }
        selected := value;
      }
    }

    /** CanExecuteTimeSpanSelectedCommand. */
    predicate CanExecute()
      reads this
    {
      unitNumber >= 0
    }

    /** ExecuteTimeSpanSelectedCommand: with a callback, the selected builder
        builds the current number of units and the span is passed on. */
    method Execute() returns (r: Execution)
      ensures r.NotInvoked? <==> !hasCallback
      ensures r == Failed(NullSelection) <==> hasCallback && selected == null
      ensures r.Invoked? ==> selected != null && r.span == unitNumber * UnitSeconds(selected.unit) * TicksPerSecond
      ensures r == Failed(SpanOutOfRange) <==>
        hasCallback && selected != null && selected.Build(unitNumber).None?
      ensures hasCallback && selected != null && selected.Build(unitNumber).Some? ==>
        r == Invoked(selected.Build(unitNumber).value)
    {
      if !hasCallback {
        r := NotInvoked;
      } else if selected == null {
        r := Failed(NullSelection);
      } else {
        var span := selected.Build(unitNumber);
        r := if span.Some? then Invoked(span.value) else Failed(SpanOutOfRange);
      }
    }
  }

  /** Right after construction every builder shows its plural caption; the
      selected one, if any, with " before". */
  lemma CaptionsAfterConstruction(e: ReminderEditor, i: int)
    requires e.Valid() && e.unitNumber == ReminderEditor.DefaultUnitNumber
    requires 0 <= i < |e.builders|
    ensures e.builders[i].ActualDisplayName() ==
      if e.builders[i] == e.selected then Some(e.builders[i].plural + " before") else Some(e.builders[i].plural)
  {
  }
}
