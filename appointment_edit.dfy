/** The appointment edit page's view-model: the edited fields, their setters,
    the reminder rows, and SaveChanges, which writes the fields back into the
    storage as a new appointment, into the edited appointment, into its
    series, or into a new series split off at the edited occurrence. */
module AppointmentEdit {
  import opened Times
  import opened Scheduler
  import opened ReminderLists
  import opened RecurrenceEdit

  const SelectAppointmentTypeTitle: string := "This is a recurring appointment."
  const EditOccurrenceAction: string := "Change this appointment only"
  const EditFutureOccurrencesAction: string := "Change this and all future appointments"
  const EditPatternAction: string := "Change all appointments in the series"
  const CancelAction: string := "Cancel"
  const NewAppointmentTitle: string := "New Appointment"
  const EditAppointmentTitle: string := "Edit Appointment"

  /** The recurrence chosen in the editor: its type and its settings. */
  datatype Rule = Rule(kind: RecurrenceType, settings: int)

  /** What SaveChanges reads of the editor. `labelId` and `statusId` are the ids
      of the selected items (None for null), `timeZone` the id of the selected
      zone, `recurrence` None when the "never" option is chosen, `reminders`
      the reminder rows' offsets in list order. */
  datatype EditorState = EditorState(
    appointment: Option<Id>,
    start: int,
    end: int,
    allDay: bool,
    subject: Option<string>,
    labelId: Option<int>,
    statusId: Option<int>,
    timeZone: Option<string>,
    recurrence: Option<Rule>,
    ending: Ending,
    reminders: seq<int>,
    allowRecurrence: bool,
    isRecurrenceChanged: bool,
    isDateChanged: bool)

  // ---- Data-source checks ------------------------------------------------

  /** IsBoundMode: a data source with an appointments source and mappings. */
  predicate IsBoundMode(ds: Option<DataSource>) {
    ds.Some? && ds.value.hasAppointmentsSource && ds.value.mappings.Some?
  }

  function CheckAllowTimeZones(ds: Option<DataSource>): (allow: bool)
    ensures !allow <==> IsBoundMode(ds) && !ds.value.mappings.value.timeZoneIdMapped
  {
    !(IsBoundMode(ds) && !ds.value.mappings.value.timeZoneIdMapped)
  }

  function CheckAllowReminders(ds: Option<DataSource>): (allow: bool)
    ensures !allow <==> IsBoundMode(ds) && !ds.value.mappings.value.reminderMapped
  {
    !(IsBoundMode(ds) && !ds.value.mappings.value.reminderMapped)
  }

  function CheckAllowRecurrence(ds: Option<DataSource>): (allow: bool)
    ensures !allow <==> IsBoundMode(ds) && !ds.value.mappings.value.supportsRecurrence
  {
    !(IsBoundMode(ds) && !ds.value.mappings.value.supportsRecurrence)
  }

  /** Without a bound data source the editor offers time zones, reminders
      and recurrence; with one, it offers exactly those the mappings
      support. */
  lemma AllAllowedUnlessBound(ds: Option<DataSource>)
    ensures !IsBoundMode(ds) ==> CheckAllowTimeZones(ds) && CheckAllowReminders(ds) && CheckAllowRecurrence(ds)
    ensures IsBoundMode(ds) ==>
      (CheckAllowTimeZones(ds) <==> ds.value.mappings.value.timeZoneIdMapped) &&
      (CheckAllowReminders(ds) <==> ds.value.mappings.value.reminderMapped) &&
      (CheckAllowRecurrence(ds) <==> ds.value.mappings.value.supportsRecurrence)
  {
  }

  // ---- Time zones ----------------------------------------------------------

  /** GetTimeZoneId: the operation zone stands in for a null zone. */
  function TimeZoneId(z: TimeZoneEngine, tz: Option<string>): string {
    if tz.None? then z.operationZone else tz.value
  }

  /** IsDefaultTimeZone: no zone, or the operation zone. */
  predicate IsDefaultTimeZone(z: TimeZoneEngine, tz: Option<string>) {
    tz.None? || tz.value == z.operationZone
  }

  function ToClientTime(z: TimeZoneEngine, t: int, tz: Option<string>): int {
    z.toOperationTime(t, TimeZoneId(z, tz))
  }

  // ---- Date and time setters -------------------------------------------------

  /** The editor's interval and its date-changed flag. */
  datatype Interval = Interval(start: int, end: int, isDateChanged: bool)

  /** The StartDate setter: the start moves to the given date at its own time
      of day, and the end follows so that the duration stays. */
  function StartDateSet(iv: Interval, value: int): (r: Interval)
    ensures r.end - r.start == iv.end - iv.start
    ensures Date(r.start) == Date(value) && TimeOfDay(r.start) == TimeOfDay(iv.start)
    ensures r.start == iv.start ==> r == iv
    ensures r.isDateChanged == (iv.isDateChanged || r.start != iv.start)
  {
    DateAndTime(Date(value), TimeOfDay(iv.start));
    var newStart := Date(value) + TimeOfDay(iv.start);
    if iv.start == newStart then iv
    else
      var duration := iv.end - iv.start;
      Interval(newStart, newStart + duration, true)
  }

  /** The StartTime setter: the start moves to the given time on its own
      date, the end follows, and the date-changed flag is left alone. */
  function StartTimeSet(iv: Interval, value: int): (r: Interval)
    ensures r.end - r.start == iv.end - iv.start
    ensures r.start == Date(iv.start) + value
    ensures 0 <= value < TicksPerDay ==> Date(r.start) == Date(iv.start) && TimeOfDay(r.start) == value
    ensures r.start == iv.start ==> r == iv
    ensures r.isDateChanged == iv.isDateChanged
  {
    assert 0 <= value < TicksPerDay ==>
      Date(Date(iv.start) + value) == Date(iv.start) && TimeOfDay(Date(iv.start) + value) == value by {
      if 0 <= value < TicksPerDay {
        DateAndTime(Date(iv.start), value);
      }
    }
    var newStart := Date(iv.start) + value;
    if iv.start == newStart then iv
    else
      var duration := iv.end - iv.start;
      Interval(newStart, newStart + duration, iv.isDateChanged)
  }

  /** The EndDate setter: the end moves to the given date at its own time of
      day; when it lands before the start, the start moves back to keep the
      old duration (ValidateStart). */
  function EndDateSet(iv: Interval, value: int): (r: Interval)
    ensures Date(r.end) == Date(value) && TimeOfDay(r.end) == TimeOfDay(iv.end)
    ensures r.end >= iv.start ==> r.start == iv.start
    ensures r.end < iv.start ==> r.end - r.start == iv.end - iv.start
    ensures iv.start <= iv.end ==> r.start <= r.end
    ensures r.end == iv.end ==> r == iv
    ensures r.isDateChanged == (iv.isDateChanged || r.end != iv.end)
  {
    DateAndTime(Date(value), TimeOfDay(iv.end));
    var newEnd := Date(value) + TimeOfDay(iv.end);
    if iv.end == newEnd then iv
    else
      var duration := iv.end - iv.start;
      Interval(if newEnd < iv.start then newEnd - duration else iv.start, newEnd, true)
  }

  /** The EndTime setter: like EndDate on the end's own date, without raising
      the date-changed flag. */
  function EndTimeSet(iv: Interval, value: int): (r: Interval)
    ensures r.end == Date(iv.end) + value
    ensures 0 <= value < TicksPerDay ==> Date(r.end) == Date(iv.end) && TimeOfDay(r.end) == value
    ensures r.end >= iv.start ==> r.start == iv.start
    ensures r.end < iv.start ==> r.end - r.start == iv.end - iv.start
    ensures iv.start <= iv.end ==> r.start <= r.end
    ensures r.end == iv.end ==> r == iv
    ensures r.isDateChanged == iv.isDateChanged
  {
    assert 0 <= value < TicksPerDay ==>
      Date(Date(iv.end) + value) == Date(iv.end) && TimeOfDay(Date(iv.end) + value) == value by {
      if 0 <= value < TicksPerDay {
        DateAndTime(Date(iv.end), value);
      }
    }
    var newEnd := Date(iv.end) + value;
    if iv.end == newEnd then iv
    else
      var duration := iv.end - iv.start;
      Interval(if newEnd < iv.start then newEnd - duration else iv.start, newEnd, iv.isDateChanged)
  }

  /** The all-day flag and the end it shifts. */
  datatype DayFlag = DayFlag(allDay: bool, end: int)

  /** The AllDay setter: when the flag changes and the end is at midnight,
      the end moves a day back (turning all-day on) or forward (off). */
  function AllDaySet(d: DayFlag, value: bool): (r: DayFlag)
    ensures r.allDay == value
    ensures TimeOfDay(r.end) == TimeOfDay(d.end)
    ensures value == d.allDay || TimeOfDay(d.end) != 0 ==> r.end == d.end
  {
    if value == d.allDay then d
    else if TimeOfDay(d.end) == 0 then DayFlag(value, AddDays(d.end, if value then -1 else 1))
    else DayFlag(value, d.end)
  }

  /** Turning all-day on and off again (or off and on) restores the end. */
  lemma AllDayToggleRestores(d: DayFlag)
    ensures AllDaySet(AllDaySet(d, !d.allDay), d.allDay) == d
  {
  }

  // ---- Reminder rows ---------------------------------------------------------

  /** The offsets of the reminder rows, in order. */
  function Offsets(rs: seq<Reminder>): (ts: seq<int>)
    ensures |ts| == |rs|
    ensures forall i :: 0 <= i < |rs| ==> ts[i] == rs[i].timeBeforeStart
  {
    seq(|rs|, i requires 0 <= i < |rs| => rs[i].timeBeforeStart)
  }

  /** The rows as the reminders editor leaves them: exactly one row, the
      first, is marked first, and HasReminders says whether there are rows. */
  predicate RowsValid(rs: seq<Reminder>, hasReminders: bool) {
    hasReminders == (|rs| > 0) &&
    forall i :: 0 <= i < |rs| ==> (rs[i].isFirst <==> i == 0)
  }

  // ---- Populating an appointment ---------------------------------------------

  /** GetNewStartValueForRecurrenceOf: only a pattern gets a new rule start,
      the edited start when the date was changed and its own start otherwise. */
  function NewStartForRecurrence(s: EditorState, m: Item): (r: Option<int>)
    ensures r.Some? <==> m.kind == Pattern
    ensures r.Some? ==> r.value == if s.isDateChanged then s.start else m.start
  {
    if m.kind != Pattern then None
    else Some(if s.isDateChanged then s.start else m.start)
  }

  /** PopulateRecurrence: None for the "never" option; otherwise the given
      rule (or a new one starting at the edited start), its start moved to
      `newStart` when there is one, with the chosen type, settings and ending
      written into it. */
  function PopulatedRule(s: EditorState, info: Option<RecurrenceInfo>, newStart: Option<int>): (r: Option<RecurrenceInfo>)
    ensures r.None? <==> s.recurrence.None?
    ensures r.Some? ==> r.value.kind == s.recurrence.value.kind && r.value.settings == s.recurrence.value.settings
    ensures r.Some? ==> r.value.ending == s.ending
    ensures r.Some? && info.None? ==> r.value.start == s.start
    ensures r.Some? && info.Some? ==> r.value.start == if newStart.Some? then newStart.value else info.value.start
  {
    if s.recurrence.None? then None
    else
      var base :=
        if info.None? then RecurrenceInfo(Daily, s.start, 0, NoEndDate)
        else if newStart.Some? then info.value.(start := newStart.value)
        else info.value;
      Some(base.(kind := s.recurrence.value.kind, settings := s.recurrence.value.settings, ending := s.ending))
  }

  /** A record after PopulateAppointmentValues, and the exception it ran
      into, if any (the fields written before it stay written). */
  datatype Populate = Populate(item: Item, failure: Option<Error>)

  /** The first writes of PopulateAppointmentValues: the all-day flag, start
      and end (a pattern keeps its dates and takes the edited times of day;
      an all-day end at midnight is pushed to the next midnight), subject. */
  function WrittenTimes(s: EditorState, z: TimeZoneEngine, m: Item): (r: Item)
    ensures r.kind == m.kind && r.recurrence == m.recurrence && r.reminders == m.reminders
    ensures r.timeZoneId == m.timeZoneId && r.labelId == m.labelId && r.statusId == m.statusId
    ensures r.allDay == s.allDay && r.subject == s.subject
  {
    var tz := s.timeZone;
    var m1 := m.(allDay := s.allDay);
    var m2 :=
      if m1.kind == Pattern then
        m1.(start := if s.allDay then m1.start else Date(ToClientTime(z, m1.start, tz)) + TimeOfDay(s.start),
            end := if s.allDay then m1.end else Date(ToClientTime(z, m1.end, tz)) + TimeOfDay(s.end))
      else
        m1.(start := if s.allDay then s.start else ToClientTime(z, s.start, tz),
            end := if s.allDay then (if TimeOfDay(s.end) == 0 then AddDays(s.end, 1) else s.end)
                   else ToClientTime(z, s.end, tz));
    m2.(subject := s.subject)
  }

  /** The time-zone write: skipped while the default zone is selected and the
      record names none; otherwise the selected zone, or "" for the default. */
  function WrittenZone(s: EditorState, z: TimeZoneEngine, m: Item): (r: Item)
    ensures r == m.(timeZoneId := r.timeZoneId)
    ensures IsDefaultTimeZone(z, s.timeZone) && IsNullOrEmpty(m.timeZoneId) ==> r.timeZoneId == m.timeZoneId
    ensures !IsDefaultTimeZone(z, s.timeZone) ==> r.timeZoneId == s.timeZone
    ensures IsDefaultTimeZone(z, s.timeZone) && !IsNullOrEmpty(m.timeZoneId) ==> r.timeZoneId == Some("")
  {
    var tz := s.timeZone;
    if !(IsDefaultTimeZone(z, tz) && IsNullOrEmpty(m.timeZoneId))
    then m.(timeZoneId := Some(if IsDefaultTimeZone(z, tz) then "" else tz.value))
    else m
  }

  /** The last writes: the recurrence rule (an existing rule is populated in
      place), the type, and the reminders. */
  function WrittenRule(s: EditorState, m: Item): (r: Item)
    ensures r.start == m.start && r.end == m.end && r.allDay == m.allDay && r.subject == m.subject
    ensures r.labelId == m.labelId && r.statusId == m.statusId && r.timeZoneId == m.timeZoneId
    ensures r.pattern == m.pattern && r.recurrenceIndex == m.recurrenceIndex
    ensures r.reminders == Merged(m.reminders, s.reminders)
  {
    var info := PopulatedRule(s, m.recurrence, NewStartForRecurrence(s, m));
    var typed := WrittenType(m, info, s.allowRecurrence);
    typed.(reminders := Merged(typed.reminders, s.reminders))
  }

  /** The rule and the type written for the populated rule `info`. */
  function WrittenType(m: Item, info: Option<RecurrenceInfo>, allowRecurrence: bool): (r: Item)
    ensures r == m.(kind := r.kind, recurrence := r.recurrence)
  {
    var m7 := if m.recurrence.Some? && info.Some? then m.(recurrence := info) else m;
    var m8 :=
      if !IsOccurrence(m7.kind) && allowRecurrence && info.Some?
      then m7.(kind := Pattern, recurrence := info)
      else m7;
    if m8.kind == Pattern && info.None? then m8.(kind := Normal) else m8
  }

  /** PopulateAppointmentValues, step by step as the source writes the record:
      times and subject, then label and status (a null one throws with the
      writes made so far), then the time zone, the rule, the type and the
      reminders. */
  function Populated(s: EditorState, z: TimeZoneEngine, m: Item): (r: Populate)
  {
    var m3 := WrittenTimes(s, z, m);
    if s.labelId.None? then Populate(m3, Some(NullLabel))
    else if s.statusId.None? then Populate(m3.(labelId := s.labelId.value), Some(NullStatus))
    else Populate(WrittenRule(s, WrittenZone(s, z, m3.(labelId := s.labelId.value, statusId := s.statusId.value))), None)
  }

  /** A null label or status throws NullReferenceException half-way: the
      times, the all-day flag and the subject are already written, the rest
      of the record is as it was. */
  lemma PopulatedFailure(s: EditorState, z: TimeZoneEngine, m: Item)
    ensures Populated(s, z, m).failure ==
      if s.labelId.None? then Some(NullLabel) else if s.statusId.None? then Some(NullStatus) else None
    ensures Populated(s, z, m).failure.Some? ==>
      var r := Populated(s, z, m).item;
      r.kind == m.kind && r.recurrence == m.recurrence && r.reminders == m.reminders &&
      r.timeZoneId == m.timeZoneId && r.statusId == m.statusId &&
      r.allDay == s.allDay && r.subject == s.subject &&
      (s.labelId.None? ==> r.labelId == m.labelId) && (s.labelId.Some? ==> r.labelId == s.labelId.value)
  {
  }

  /** The type transitions of PopulateAppointmentValues: the "never" option
      turns a pattern into a normal appointment; a recurrence turns anything
      but an occurrence into a pattern when the editor allows recurrence; an
      occurrence keeps its type. */
  lemma {:induction false} PopulatedType(s: EditorState, z: TimeZoneEngine, m: Item)
    requires s.labelId.Some? && s.statusId.Some?
    ensures IsOccurrence(m.kind) ==> Populated(s, z, m).item.kind == m.kind
    ensures s.recurrence.None? && m.kind == Pattern ==> Populated(s, z, m).item.kind == Normal
    ensures s.recurrence.None? && m.kind != Pattern ==> Populated(s, z, m).item.kind == m.kind
    ensures s.recurrence.Some? && s.allowRecurrence && !IsOccurrence(m.kind) ==>
      Populated(s, z, m).item.kind == Pattern && Populated(s, z, m).item.recurrence.Some?
    ensures s.recurrence.Some? && !s.allowRecurrence && m.kind != Pattern ==> Populated(s, z, m).item.kind == m.kind
  {
  }

  /** The rule a pattern with a rule ends up with: the chosen type, settings
      and ending, starting at the edited start when the date was changed and
      at the pattern's (newly written) start otherwise. */
  lemma PopulatedPatternRule(s: EditorState, z: TimeZoneEngine, m: Item)
    requires s.labelId.Some? && s.statusId.Some?
    requires m.kind == Pattern && m.recurrence.Some? && s.recurrence.Some?
    ensures var r := Populated(s, z, m).item;
      r.kind == Pattern && r.recurrence.Some? &&
      r.recurrence.value.kind == s.recurrence.value.kind &&
      r.recurrence.value.settings == s.recurrence.value.settings &&
      r.recurrence.value.ending == s.ending &&
      r.recurrence.value.start == (if s.isDateChanged then s.start else r.start)
  {
  }

  /** The time-zone rule: a record that names no zone keeps naming none while
      the default zone is selected; otherwise it names the selected zone, or
      the empty string for the default one. */
  lemma PopulatedTimeZone(s: EditorState, z: TimeZoneEngine, m: Item)
    requires s.labelId.Some? && s.statusId.Some?
    ensures IsDefaultTimeZone(z, s.timeZone) && IsNullOrEmpty(m.timeZoneId) ==>
      Populated(s, z, m).item.timeZoneId == m.timeZoneId
    ensures !IsDefaultTimeZone(z, s.timeZone) ==> Populated(s, z, m).item.timeZoneId == s.timeZone
    ensures IsDefaultTimeZone(z, s.timeZone) && !IsNullOrEmpty(m.timeZoneId) ==>
      Populated(s, z, m).item.timeZoneId == Some("")
  {
  }

  /** The reminders written back: the record's reminders still in the editor
      followed by the editor's new ones, or the record's list untouched when
      the editor shows exactly those. */
  lemma PopulatedReminders(s: EditorState, z: TimeZoneEngine, m: Item)
    requires s.labelId.Some? && s.statusId.Some?
    ensures Populated(s, z, m).item.reminders ==
      if |Keep(s.reminders, m.reminders)| != |m.reminders| || Drop(s.reminders, m.reminders) != []
      then Keep(m.reminders, s.reminders) + Drop(s.reminders, m.reminders)
      else m.reminders
  {
    MergedResult(m.reminders, s.reminders);
  }

  /** The times of a record that is not a pattern: the edited ones, converted
      to the selected zone for a timed record; an all-day end at midnight is
      written one day later. */
  lemma PopulatedTimes(s: EditorState, z: TimeZoneEngine, m: Item)
    requires m.kind != Pattern
    ensures var r := Populated(s, z, m).item;
      r.allDay == s.allDay &&
      (s.allDay ==> r.start == s.start && TimeOfDay(r.end) == TimeOfDay(s.end) &&
                    r.end == (if TimeOfDay(s.end) == 0 then s.end + TicksPerDay else s.end)) &&
      (!s.allDay ==> r.start == ToClientTime(z, s.start, s.timeZone) && r.end == ToClientTime(z, s.end, s.timeZone))
  {
  }

  /** A pattern keeps its dates: only the times of day of the edited start
      and end are written, and an all-day pattern keeps its times. */
  lemma PopulatedPatternTimes(s: EditorState, z: TimeZoneEngine, m: Item)
    requires m.kind == Pattern
    ensures var r := Populated(s, z, m).item;
      (s.allDay ==> r.start == m.start && r.end == m.end) &&
      (!s.allDay ==>
        Date(r.start) == Date(ToClientTime(z, m.start, s.timeZone)) && TimeOfDay(r.start) == TimeOfDay(s.start) &&
        Date(r.end) == Date(ToClientTime(z, m.end, s.timeZone)) && TimeOfDay(r.end) == TimeOfDay(s.end))
  {
    DateAndTime(Date(ToClientTime(z, m.start, s.timeZone)), TimeOfDay(s.start));
    DateAndTime(Date(ToClientTime(z, m.end, s.timeZone)), TimeOfDay(s.end));
  }

  /** The times the editor shows for an existing appointment
      (AssignAppointmentData): an all-day record's own times, a timed
      record's converted from its zone; turning all-day on then moves an end
      at midnight one day back. */
  function LoadedTimes(m: Item, z: TimeZoneEngine): (int, int) {
    var zone := LoadedZone(m, z);
    var start := if m.allDay then m.start else z.fromOperationTime(m.start, zone);
    var end := if m.allDay then m.end else z.fromOperationTime(m.end, zone);
    (start, AllDaySet(DayFlag(false, end), m.allDay).end)
  }

  /** The times shown: an all-day record's own start, and its end a day
      early when that end is at midnight; a timed record's times converted
      from its zone. */
  lemma LoadedTimesShown(m: Item, z: TimeZoneEngine)
    ensures m.allDay ==> LoadedTimes(m, z).0 == m.start
    ensures m.allDay && TimeOfDay(m.end) == 0 ==> LoadedTimes(m, z).1 == m.end - TicksPerDay
    ensures m.allDay && TimeOfDay(m.end) != 0 ==> LoadedTimes(m, z).1 == m.end
    ensures !m.allDay ==>
      LoadedTimes(m, z) == (z.fromOperationTime(m.start, LoadedZone(m, z)), z.fromOperationTime(m.end, LoadedZone(m, z)))
  {
  }

  /** The label or status the editor selects for a record's id: the first
      listed item with that id (FirstOrDefault), kept by its id, or null. */
  function ListedId<T>(items: seq<T>, idOf: T -> int, id: int): (r: Option<int>)
    ensures r.Some? <==> exists i :: 0 <= i < |items| && idOf(items[i]) == id
    ensures r.Some? ==> r.value == id
  {
    var found := FirstWithId(items, idOf, id);
    if found.Some? then Some(idOf(found.value)) else None
  }

  /** The editor after the first part of AssignAppointmentData: the record's
      times as the editor shows them, its subject, and the listed zone, label
      and status matching its own. */
  function LoadedFields(s: EditorState, m: Item, z: TimeZoneEngine, labels: seq<LabelItem>, statuses: seq<StatusItem>): EditorState
  {
    var zone := LoadedZone(m, z);
    var times := LoadedTimes(m, z);
    s.(start := times.0, end := times.1, allDay := m.allDay)
     .(subject := m.subject, timeZone := if zone in z.zones then Some(zone) else None)
     .(labelId := ListedId(labels, LabelIdOf, m.labelId),
       statusId := ListedId(statuses, StatusIdOf, m.statusId))
  }

  /** The editor after AssignRecurrence of a rule: the rule's option and
      ending, or the "never" option with the ending left as it is. */
  function LoadedRule(s: EditorState, info: Option<RecurrenceInfo>): EditorState
  {
    s.(recurrence := if info.None? then None else Some(Rule(info.value.kind, info.value.settings)),
       ending := if info.None? then s.ending else info.value.ending)
  }

  /** The editor after AssignAppointmentData of the record `m`: its fields,
      then its reminders, then its rule. */
  function Loaded(s: EditorState, m: Item, z: TimeZoneEngine, labels: seq<LabelItem>, statuses: seq<StatusItem>): EditorState
  {
    LoadedRule(LoadedFields(s, m, z, labels, statuses).(reminders := m.reminders), m.recurrence)
  }

  /** The zone an existing appointment is shown in: its own, or the operation
      zone when it names none. */
  function LoadedZone(m: Item, z: TimeZoneEngine): string {
    if IsNullOrEmpty(m.timeZoneId) then z.operationZone else m.timeZoneId.value
  }

  /** Opening an all-day appointment that is not a pattern and saving it
      unedited writes back its own start and end: the end shown a day early
      is pushed back to the midnight it came from. */
  lemma AllDayLoadSaveRoundTrip(m: Item, z: TimeZoneEngine, s: EditorState)
    requires m.allDay && m.kind != Pattern
    requires s.allDay && (s.start, s.end) == LoadedTimes(m, z)
    ensures Populated(s, z, m).item.start == m.start
    ensures Populated(s, z, m).item.end == m.end
  {
    if TimeOfDay(m.end) == 0 {
      DateAndTime(Date(m.end) - TicksPerDay, 0);
    }
  }

  // ---- Storage effects -------------------------------------------------------

  /** A storage after an operation, and the exception the operation ran into. */
  datatype Effect = Effect(store: Store, failure: Option<Error>)

  /** The storage and the result SaveChanges returns or throws. */
  datatype SaveResult = SaveResult(store: Store, outcome: Outcome)

  /** PopulateAppointmentValues on a stored record: the record is written in
      place, up to the exception if there is one. */
  function PopulateStored(st: Store, s: EditorState, z: TimeZoneEngine, id: Id): (e: Effect)
    requires id in st.items
    ensures e.store.items.Keys == st.items.Keys && e.store.nextId == st.nextId
    ensures forall k :: k in st.items && k != id ==> e.store.items[k] == st.items[k]
    ensures e.store.items[id] == Populated(s, z, st.items[id]).item
    ensures e.failure == Populated(s, z, st.items[id]).failure
  {
    var p := Populated(s, z, st.items[id]);
    Effect(Replaced(st, id, p.item), p.failure)
  }

  /** CreateNewAppointment: a fresh record is populated and added; an
      exception while populating leaves it out of the storage. */
  function CreateNew(st: Store, s: EditorState, z: TimeZoneEngine): (e: Effect)
    requires st.Valid()
    ensures e.store.Valid()
    ensures e.failure == Populated(s, z, NewItem()).failure
    ensures e.failure.Some? ==> e.store == st
    ensures e.failure.None? ==> e.store == Added(st, Populated(s, z, NewItem()).item)
  {
    var p := Populated(s, z, NewItem());
    if p.failure.Some? then Effect(st, p.failure) else Effect(Added(st, p.item), None)
  }

  /** PopulateActualAppointmentPattern: the occurrence's pattern is populated;
      a pattern that is not found throws (null reference). */
  function PopulatePattern(st: Store, s: EditorState, z: TimeZoneEngine, occurrence: Id): (e: Effect)
    ensures GetPattern(st, occurrence).None? ==> e == Effect(st, Some(NullPattern))
    ensures GetPattern(st, occurrence).Some? ==> e == PopulateStored(st, s, z, GetPattern(st, occurrence).value)
  {
    match GetPattern(st, occurrence)
    case None => Effect(st, Some(NullPattern))
    case Some(p) => PopulateStored(st, s, z, p)
  }

  /** CreateNewPatternByOccurrence: at the first occurrence (index <= 0) the
      old pattern is populated in place; later, the old series is stopped
      before the occurrence and a new pattern is created and added. */
  function NewPatternByOccurrence(st: Store, s: EditorState, z: TimeZoneEngine, occurrence: Id): (e: Effect)
    requires st.Valid() && occurrence in st.items
    ensures e.store.Valid() || st.items[occurrence].recurrenceIndex <= 0
    ensures st.items[occurrence].recurrenceIndex <= 0 ==> e == PopulatePattern(st, s, z, occurrence)
    ensures st.items[occurrence].recurrenceIndex > 0 ==> e == CreateNew(StoppedBefore(st, occurrence), s, z)
  {
    if st.items[occurrence].recurrenceIndex <= 0 then PopulatePattern(st, s, z, occurrence)
    else CreateNew(StoppedBefore(st, occurrence), s, z)
  }

  /** An operation that returns true unless it ran into an exception. */
  function Finish(e: Effect): (r: SaveResult)
    ensures r.store == e.store
    ensures r.outcome == if e.failure.Some? then Threw(e.failure.value) else Returned(true)
  {
    SaveResult(e.store, if e.failure.Some? then Threw(e.failure.value) else Returned(true))
  }

  /** SaveChanges as the source writes it: a new appointment is created; a
      record that is not an occurrence is populated; for an occurrence, a
      changed recurrence with a changed date splits off a new series and then
      removes the occurrence's pattern, a changed recurrence alone populates
      the pattern; otherwise the dialog is needed (`dialog` is None without a
      dialog service, else the action the user picks): the answer picks the
      occurrence, a split, or the pattern, and anything else returns false. */
  function SaveEffect(st: Store, s: EditorState, z: TimeZoneEngine, dialog: Option<string>): (r: SaveResult)
    requires st.Valid()
    requires s.appointment.Some? ==> s.appointment.value in st.items
  {
    if s.appointment.None? then Finish(CreateNew(st, s, z))
    else
      var a := s.appointment.value;
      if st.items[a].kind != Occurrence then Finish(PopulateStored(st, s, z, a))
      else if s.isRecurrenceChanged then
        if s.isDateChanged then
          var e := NewPatternByOccurrence(st, s, z, a);
          if e.failure.Some? then SaveResult(e.store, Threw(e.failure.value))
          else SaveResult(Removed(e.store, GetPattern(e.store, a)), Returned(true))
        else Finish(PopulatePattern(st, s, z, a))
      else if dialog.None? then SaveResult(st, Threw(MissingDialogService))
      else if dialog.value == EditOccurrenceAction then Finish(PopulateStored(st, s, z, a))
      else if dialog.value == EditFutureOccurrencesAction then Finish(NewPatternByOccurrence(st, s, z, a))
      else if dialog.value == EditPatternAction then Finish(PopulatePattern(st, s, z, a))
      else SaveResult(st, Returned(false))
  }

  /** SaveChanges with the series kept when a changed recurrence and date are
      saved from the first occurrence: the old pattern, already rewritten in
      place, is removed only when a new pattern replaced it. */
  function SaveEffectCorrected(st: Store, s: EditorState, z: TimeZoneEngine, dialog: Option<string>): (r: SaveResult)
    requires st.Valid()
    requires s.appointment.Some? ==> s.appointment.value in st.items
  {
    if s.appointment.Some? && st.items[s.appointment.value].kind == Occurrence
       && s.isRecurrenceChanged && s.isDateChanged && st.items[s.appointment.value].recurrenceIndex <= 0
    then Finish(PopulatePattern(st, s, z, s.appointment.value))
    else SaveEffect(st, s, z, dialog)
  }

  // ---- Properties of SaveChanges ---------------------------------------------

  /** The storage handed to SaveChanges with an edited appointment that lives
      in it. */
  ghost predicate Editable(st: Store, s: EditorState) {
    st.Valid() && (s.appointment.Some? ==> s.appointment.value in st.items)
  }

  /** Saving a new appointment adds exactly one record, under a new identity,
      leaves every other record alone and returns true; a null label or
      status throws and adds nothing. */
  lemma SaveNewAddsOne(st: Store, s: EditorState, z: TimeZoneEngine, dialog: Option<string>)
    requires st.Valid() && s.appointment.None?
    ensures var r := SaveEffect(st, s, z, dialog);
      (s.labelId.Some? && s.statusId.Some? ==>
        r.outcome == Returned(true) && st.nextId !in st.items &&
        r.store.items.Keys == st.items.Keys + {st.nextId} &&
        (forall k :: k in st.items ==> r.store.items[k] == st.items[k]) &&
        r.store.items[st.nextId].pattern.None?) &&
      (s.labelId.None? || s.statusId.None? ==> r.store == st && r.outcome.Threw?)
  {
    PopulatedFailure(s, z, NewItem());
  }

  /** Saving a record that is not an occurrence changes that record only,
      never asks: the answer and the missing dialog make no difference, and
      the result is true unless a null label or status throws. */
  lemma SaveNonOccurrence(st: Store, s: EditorState, z: TimeZoneEngine, dialog: Option<string>, other: Option<string>)
    requires Editable(st, s) && s.appointment.Some?
    requires st.items[s.appointment.value].kind != Occurrence
    ensures var r := SaveEffect(st, s, z, dialog);
      r == SaveEffect(st, s, z, other) &&
      r.store.items.Keys == st.items.Keys &&
      (forall k :: k in st.items && k != s.appointment.value ==> r.store.items[k] == st.items[k]) &&
      (r.outcome == Returned(true) <==> s.labelId.Some? && s.statusId.Some?)
  {
    PopulatedFailure(s, z, st.items[s.appointment.value]);
  }

  /** For an occurrence whose recurrence changed but not its date, the
      pattern is populated without asking: only the pattern changes, and only
      a missing pattern (or a null label or status) throws. */
  lemma SaveRecurrenceOnly(st: Store, s: EditorState, z: TimeZoneEngine, dialog: Option<string>, other: Option<string>)
    requires Editable(st, s) && s.appointment.Some?
    requires st.items[s.appointment.value].kind == Occurrence
    requires s.isRecurrenceChanged && !s.isDateChanged
    ensures var r := SaveEffect(st, s, z, dialog);
      var p := GetPattern(st, s.appointment.value);
      r == SaveEffect(st, s, z, other) &&
      r.store.items.Keys == st.items.Keys &&
      (forall k :: k in st.items && Some(k) != p ==> r.store.items[k] == st.items[k]) &&
      (p.None? ==> r == SaveResult(st, Threw(NullPattern))) &&
      (p.Some? && s.labelId.Some? && s.statusId.Some? ==>
        r.outcome == Returned(true) && r.store.items[p.value] == Populated(s, z, st.items[p.value]).item)
  {
    if GetPattern(st, s.appointment.value).Some? {
      PopulatedFailure(s, z, st.items[GetPattern(st, s.appointment.value).value]);
    }
  }

  /** The records of a series: the pattern and every record referring to it. */
  function SeriesRemoved(st: Store, p: Id): set<Id> {
    set k | k in st.items && k != p && st.items[k].pattern != Some(p)
  }

  /** A changed recurrence and date, saved from a later occurrence: the old
      pattern is stopped before it and a new pattern added, then the old
      pattern is removed with every record of its series; what is left is the
      records of other series and the new pattern, which belongs to none. */
  lemma SaveBothChangedLater(st: Store, s: EditorState, z: TimeZoneEngine, dialog: Option<string>)
    requires Editable(st, s) && s.appointment.Some?
    requires st.items[s.appointment.value].kind == Occurrence && st.items[s.appointment.value].recurrenceIndex > 0
    requires s.isRecurrenceChanged && s.isDateChanged
    requires s.labelId.Some? && s.statusId.Some?
    requires GetPattern(st, s.appointment.value).Some?
    ensures var r := SaveEffect(st, s, z, dialog);
      var p := GetPattern(st, s.appointment.value).value;
      r.outcome == Returned(true) &&
      r.store.items.Keys == SeriesRemoved(st, p) + {st.nextId} &&
      (forall k :: k in SeriesRemoved(st, p) ==> r.store.items[k] == st.items[k]) &&
      r.store.items[st.nextId] == Populated(s, z, NewItem()).item &&
      r.store.items[st.nextId].pattern.None?
  {
    var a := s.appointment.value;
    var p := GetPattern(st, a).value;
    var st1 := StoppedBefore(st, a);
    PopulatedFailure(s, z, NewItem());
    var st2 := Added(st1, Populated(s, z, NewItem()).item);
    assert GetPattern(st2, a) == Some(p);
    var r := Removed(st2, Some(p));
    forall k | k in r.items
      ensures k in SeriesRemoved(st, p) + {st.nextId}
    {
      if k != st.nextId {
        assert st2.items[k] == st1.items[k];
      }
    }
    forall k | k in SeriesRemoved(st, p) + {st.nextId}
      ensures k in r.items
    {
      if k != st.nextId {
        assert st2.items[k] == st1.items[k];
      }
    }
  }

  /** As written, a changed recurrence and date saved from the first
      occurrence (index <= 0) rewrite the pattern in place and then remove
      it: the whole series is gone, nothing new is added, and SaveChanges
      still returns true. */
  lemma SaveBothChangedFirstLosesSeries(st: Store, s: EditorState, z: TimeZoneEngine, dialog: Option<string>)
    requires Editable(st, s) && s.appointment.Some?
    requires st.items[s.appointment.value].kind == Occurrence && st.items[s.appointment.value].recurrenceIndex <= 0
    requires s.isRecurrenceChanged && s.isDateChanged
    requires s.labelId.Some? && s.statusId.Some?
    requires GetPattern(st, s.appointment.value).Some?
    ensures var r := SaveEffect(st, s, z, dialog);
      var p := GetPattern(st, s.appointment.value).value;
      r.outcome == Returned(true) &&
      p !in r.store.items && s.appointment.value !in r.store.items &&
      r.store.items.Keys == SeriesRemoved(st, p) &&
      r.store.nextId == st.nextId
  {
    var a := s.appointment.value;
    var p := GetPattern(st, a).value;
    PopulatedFailure(s, z, st.items[p]);
    var st1 := Replaced(st, p, Populated(s, z, st.items[p]).item);
    assert GetPattern(st1, a) == Some(p);
  }

  /** Corrected, the same save keeps the series: the pattern stays, rewritten
      with the edited values, and every other record is left alone. */
  lemma SaveCorrectedKeepsSeries(st: Store, s: EditorState, z: TimeZoneEngine, dialog: Option<string>)
    requires Editable(st, s) && s.appointment.Some?
    requires st.items[s.appointment.value].kind == Occurrence && st.items[s.appointment.value].recurrenceIndex <= 0
    requires s.isRecurrenceChanged && s.isDateChanged
    requires s.labelId.Some? && s.statusId.Some?
    requires GetPattern(st, s.appointment.value).Some?
    ensures var r := SaveEffectCorrected(st, s, z, dialog);
      var p := GetPattern(st, s.appointment.value).value;
      r.outcome == Returned(true) &&
      r.store.items.Keys == st.items.Keys &&
      r.store.items[p] == Populated(s, z, st.items[p]).item &&
      (forall k :: k in st.items && k != p ==> r.store.items[k] == st.items[k])
  {
    PopulatedFailure(s, z, st.items[GetPattern(st, s.appointment.value).value]);
  }

  /** Everywhere else the corrected save is the save as written. */
  lemma SaveCorrectedElsewhere(st: Store, s: EditorState, z: TimeZoneEngine, dialog: Option<string>)
    requires Editable(st, s)
    requires s.appointment.None? || st.items[s.appointment.value].kind != Occurrence ||
      !s.isRecurrenceChanged || !s.isDateChanged || st.items[s.appointment.value].recurrenceIndex > 0
    ensures SaveEffectCorrected(st, s, z, dialog) == SaveEffect(st, s, z, dialog)
  {
  }

  /** When the dialog is needed and there is no dialog service, SaveChanges
      throws before changing anything. */
  lemma SaveMissingDialog(st: Store, s: EditorState, z: TimeZoneEngine)
    requires Editable(st, s) && s.appointment.Some?
    requires st.items[s.appointment.value].kind == Occurrence && !s.isRecurrenceChanged
    ensures SaveEffect(st, s, z, None) == SaveResult(st, Threw(MissingDialogService))
  {
  }

  /** "Change this appointment only" writes the occurrence and nothing else:
      the pattern and every other record keep their values. */
  lemma SaveThisOnly(st: Store, s: EditorState, z: TimeZoneEngine)
    requires Editable(st, s) && s.appointment.Some?
    requires st.items[s.appointment.value].kind == Occurrence && !s.isRecurrenceChanged
    ensures var r := SaveEffect(st, s, z, Some(EditOccurrenceAction));
      r.store.items.Keys == st.items.Keys &&
      (forall k :: k in st.items && k != s.appointment.value ==> r.store.items[k] == st.items[k]) &&
      r.store.items[s.appointment.value] == Populated(s, z, st.items[s.appointment.value]).item
  {
  }

  /** Cancel, or any answer that is not one of the three actions, returns
      false and changes nothing. */
  lemma SaveCancelled(st: Store, s: EditorState, z: TimeZoneEngine, answer: string)
    requires Editable(st, s) && s.appointment.Some?
    requires st.items[s.appointment.value].kind == Occurrence && !s.isRecurrenceChanged
    requires answer != EditOccurrenceAction && answer != EditFutureOccurrencesAction && answer != EditPatternAction
    ensures SaveEffect(st, s, z, Some(answer)) == SaveResult(st, Returned(false))
  {
  }

  /** "Change this and all future appointments" from the first occurrence is
      "Change all appointments in the series". */
  lemma SaveFutureAtFirstIsSeries(st: Store, s: EditorState, z: TimeZoneEngine)
    requires Editable(st, s) && s.appointment.Some?
    requires st.items[s.appointment.value].kind == Occurrence && !s.isRecurrenceChanged
    requires st.items[s.appointment.value].recurrenceIndex <= 0
    ensures SaveEffect(st, s, z, Some(EditFutureOccurrencesAction)) == SaveEffect(st, s, z, Some(EditPatternAction))
  {
  }

  /** "Change this and all future appointments" from a later occurrence: the
      old series now ends after the occurrences before this one, nothing else
      of it changes, and one new pattern, outside every series, is added. */
  lemma SaveFutureLater(st: Store, s: EditorState, z: TimeZoneEngine)
    requires Editable(st, s) && s.appointment.Some?
    requires st.items[s.appointment.value].kind == Occurrence && !s.isRecurrenceChanged
    requires st.items[s.appointment.value].recurrenceIndex > 0
    requires s.labelId.Some? && s.statusId.Some?
    requires GetPattern(st, s.appointment.value).Some?
    requires st.items[GetPattern(st, s.appointment.value).value].recurrence.Some?
    ensures var r := SaveEffect(st, s, z, Some(EditFutureOccurrencesAction));
      var a := s.appointment.value;
      var p := GetPattern(st, a).value;
      r.outcome == Returned(true) &&
      r.store.items.Keys == st.items.Keys + {st.nextId} && st.nextId !in st.items &&
      (forall k :: k in st.items && k != p ==> r.store.items[k] == st.items[k]) &&
      r.store.items[p] == st.items[p].(recurrence := Some(st.items[p].recurrence.value.(
        ending := EndAfterOccurrences(st.items[a].recurrenceIndex)))) &&
      r.store.items[st.nextId] == Populated(s, z, NewItem()).item &&
      r.store.items[st.nextId].pattern.None?
  {
    PopulatedFailure(s, z, NewItem());
  }

  // ---- The view-model ----------------------------------------------------------

  /** The default reminder offsets: 0, 5, 10, 15 and 30 minutes. */
  const DefaultReminders: seq<int> :=
    [0, 5 * TicksPerMinute, 10 * TicksPerMinute, 15 * TicksPerMinute, 30 * TicksPerMinute]

  class AppointmentEditor {
    const storage: SchedulerStorage
    const title: string
    const allowTimeZone: bool
    const allowReminders: bool
    const allowRecurrence: bool
    const never: RecurrenceItem
    const recurrences: seq<RecurrenceItem>
    const typeToItem: map<RecurrenceType, RecurrenceItem>
    /** The edited appointment; None for a new one. */
    const appointment: Option<Id>
    /** Whether a dialog service was injected. */
    const hasDialogService: bool

    var start: int
    var end: int
    var subject: Option<string>
    var allDay: bool
    var labelId: Option<int>
    var statusId: Option<int>
    var timeZone: Option<string>
    var recurrence: RecurrenceItem
    var ending: Ending
    var reminders: seq<Reminder>
    var hasReminders: bool
    var isRecurrenceChanged: bool
    var isDateChanged: bool

    /** The reminder rows are consistent, and the "never" option is the only
        option without a recurrence type. */
    ghost predicate Valid()
      reads this
    {
      RowsValid(reminders, hasReminders) &&
      never.kind.None? && (recurrence.kind.None? ==> recurrence == never) &&
      (forall t :: t in typeToItem ==> typeToItem[t].kind == Some(t))
    }

    /** What the editor holds, as SaveChanges reads it. */
    function State(): EditorState
      reads this, recurrence
    {
      EditorState(appointment, start, end, allDay, subject, labelId, statusId, timeZone,
        if recurrence.kind.None? then None else Some(Rule(recurrence.kind.value, recurrence.settings)),
        ending, Offsets(reminders), allowRecurrence, isRecurrenceChanged, isDateChanged)
    }

    /** The recurrence options: "never", then daily, weekly, monthly and
        yearly, the last four also reachable by their type. */
    static method NewOptions() returns (neverItem: RecurrenceItem, options: seq<RecurrenceItem>,
                                        mapping: map<RecurrenceType, RecurrenceItem>)
      ensures fresh(neverItem) && fresh(mapping.Values)
      ensures neverItem.kind.None? && mapping.Keys == {Daily, Weekly, Monthly, Yearly}
      ensures forall t :: t in mapping ==> mapping[t].kind == Some(t)
      ensures options == [neverItem, mapping[Daily], mapping[Weekly], mapping[Monthly], mapping[Yearly]]
    {
      neverItem := new RecurrenceItem(None);
      var daily := new RecurrenceItem(Some(Daily));
      var weekly := new RecurrenceItem(Some(Weekly));
      var monthly := new RecurrenceItem(Some(Monthly));
      var yearly := new RecurrenceItem(Some(Yearly));
      options := [neverItem, daily, weekly, monthly, yearly];
      mapping := map[Daily := daily, Weekly := weekly, Monthly := monthly, Yearly := yearly];
    }

    /** The editor for a new appointment (AssignAppointmentData with a start,
        an end and an all-day flag): no subject (it stays null), the
        storage's zone if it is listed, the first label and status, no
        recurrence, no reminders. */
    constructor ForNew(startDate: int, endDate: int, isAllDay: bool, storage: SchedulerStorage, dialogService: bool)
      ensures Valid()
      ensures this.storage == storage && appointment.None? && title == NewAppointmentTitle
      ensures allowTimeZone == CheckAllowTimeZones(storage.dataSource)
      ensures allowReminders == CheckAllowReminders(storage.dataSource)
      ensures allowRecurrence == CheckAllowRecurrence(storage.dataSource)
      ensures start == startDate && allDay == isAllDay && subject.None?
      ensures end == AllDaySet(DayFlag(false, endDate), isAllDay).end
      ensures var zone := if storage.timeZone.Some? then storage.timeZone.value else storage.engine.localZone;
        timeZone == if zone in storage.engine.zones then Some(zone) else None
      ensures labelId == if |storage.labelItems| > 0 then Some(storage.labelItems[0].id) else None
      ensures statusId == if |storage.statusItems| > 0 then Some(storage.statusItems[0].id) else None
      ensures recurrence == never && State().recurrence.None?
      ensures reminders == [] && !hasReminders && !isDateChanged && hasDialogService == dialogService
      ensures isRecurrenceChanged
    {
      this.storage := storage;
      title := NewAppointmentTitle;
      allowTimeZone := CheckAllowTimeZones(storage.dataSource);
      allowReminders := CheckAllowReminders(storage.dataSource);
      allowRecurrence := CheckAllowRecurrence(storage.dataSource);
      var neverItem, options, mapping := NewOptions();
      never := neverItem;
      recurrences := options;
      typeToItem := mapping;
      appointment := None;
      hasDialogService := dialogService;
      start := startDate;
      end := AllDaySet(DayFlag(false, endDate), isAllDay).end;
      allDay := isAllDay;
      subject := None;
      var zone := if storage.timeZone.Some? then storage.timeZone.value else storage.engine.localZone;
      timeZone := if zone in storage.engine.zones then Some(zone) else None;
      labelId := if |storage.labelItems| > 0 then Some(storage.labelItems[0].id) else None;
      statusId := if |storage.statusItems| > 0 then Some(storage.statusItems[0].id) else None;
      recurrence := neverItem;
      ending := NoEndDate;
      reminders := [];
      hasReminders := false;
      // the Recurrence setter raises the flag when the "never" option replaces null
      isRecurrenceChanged := true;
      isDateChanged := false;
    }

    /** The editor for a stored appointment (AssignAppointmentData): its
        times as the editor shows them, its subject, the listed zone, label
        and status equal to its own, its reminders with the first row marked,
        and the option and ending of its rule. */
    constructor ForExisting(id: Id, storage: SchedulerStorage, dialogService: bool)
      requires id in storage.store.items
      requires storage.store.items[id].recurrence.Some? ==>
        storage.store.items[id].recurrence.value.kind in {Daily, Weekly, Monthly, Yearly}
      ensures Valid()
      ensures this.storage == storage && appointment == Some(id) && title == EditAppointmentTitle
      ensures var m := storage.store.items[id];
        (start, end) == LoadedTimes(m, storage.engine) && allDay == m.allDay && subject == m.subject &&
        timeZone == (if LoadedZone(m, storage.engine) in storage.engine.zones then Some(LoadedZone(m, storage.engine)) else None) &&
        labelId == ListedId(storage.labelItems, LabelIdOf, m.labelId) &&
        statusId == ListedId(storage.statusItems, StatusIdOf, m.statusId) &&
        Offsets(reminders) == m.reminders &&
        State().recurrence == (if m.recurrence.None? then None
                               else Some(Rule(m.recurrence.value.kind, m.recurrence.value.settings))) &&
        (m.recurrence.Some? ==> ending == m.recurrence.value.ending)
      ensures !isRecurrenceChanged && !isDateChanged && hasDialogService == dialogService
    {
      this.storage := storage;
      title := EditAppointmentTitle;
      allowTimeZone := CheckAllowTimeZones(storage.dataSource);
      allowReminders := CheckAllowReminders(storage.dataSource);
      allowRecurrence := CheckAllowRecurrence(storage.dataSource);
      var neverItem, options, mapping := NewOptions();
      never := neverItem;
      recurrences := options;
      typeToItem := mapping;
      appointment := Some(id);
      hasDialogService := dialogService;
      start := 0;
      end := 0;
      allDay := false;
      subject := None;
      timeZone := None;
      labelId := None;
      statusId := None;
      recurrence := neverItem;
      ending := NoEndDate;
      reminders := [];
      hasReminders := false;
      isRecurrenceChanged := false;
      isDateChanged := false;
      new;
      AssignAppointmentData();
    }

    /** AssignAppointmentData for the stored appointment: its fields, then
        its reminders, then its rule. */
    method AssignAppointmentData()
      requires Valid() && appointment.Some? && appointment.value in storage.store.items
      requires reminders == [] && !allDay
      requires var m := storage.store.items[appointment.value];
        m.recurrence.Some? ==> m.recurrence.value.kind in typeToItem
      modifies this, typeToItem.Values
      ensures Valid()
      ensures State() == Loaded(old(State()), storage.store.items[appointment.value],
        storage.engine, storage.labelItems, storage.statusItems)
    {
      var m := storage.store.items[appointment.value];
      AssignTimes(m);
      AssignSubjectAndZone(m);
      AssignLabelAndStatus(m);
      AssignReminders(m.reminders);
      var failure := AssignRecurrence(m.recurrence);
      if failure.Some? {
        assert false;
      }
    }

    /** The subject of a stored record and the listed zone it is in. */
    method AssignSubjectAndZone(m: Item)
      requires Valid()
      modifies this
      ensures Valid() && reminders == old(reminders)
      ensures var zone := LoadedZone(m, storage.engine);
        State() == old(State()).(subject := m.subject, timeZone := if zone in storage.engine.zones then Some(zone) else None)
    {
      var zone := LoadedZone(m, storage.engine);
      subject := m.subject;
      timeZone := if zone in storage.engine.zones then Some(zone) else None;
    }

    /** The listed label and status with a stored record's ids, or null. */
    method AssignLabelAndStatus(m: Item)
      requires Valid()
      modifies this
      ensures Valid() && reminders == old(reminders)
      ensures State() == old(State()).(labelId := ListedId(storage.labelItems, LabelIdOf, m.labelId),
        statusId := ListedId(storage.statusItems, StatusIdOf, m.statusId))
    {
      labelId := ListedId(storage.labelItems, LabelIdOf, m.labelId);
      statusId := ListedId(storage.statusItems, StatusIdOf, m.statusId);
    }

    /** The times of a stored record as the editor shows them. */
    method AssignTimes(m: Item)
      requires Valid() && !allDay
      modifies this
      ensures Valid() && reminders == old(reminders)
      ensures var times := LoadedTimes(m, storage.engine);
        State() == old(State()).(start := times.0, end := times.1, allDay := m.allDay)
    {
      var zone := LoadedZone(m, storage.engine);
      start := if m.allDay then m.start else storage.engine.fromOperationTime(m.start, zone);
      end := if m.allDay then m.end else storage.engine.fromOperationTime(m.end, zone);
      // the AllDay setter
      var flag := AllDaySet(DayFlag(allDay, end), m.allDay);
      allDay, end := flag.allDay, flag.end;
    }

    /** AssignReminders: one row per reminder of the record, the first row
        marked first. */
    method AssignReminders(rs: seq<int>)
      requires Valid() && reminders == []
      modifies this
      ensures Valid() && Offsets(reminders) == rs
      ensures State() == old(State()).(reminders := rs)
    {
      if |rs| == 0 {
        return;
      }
      var i := 0;
      while i < |rs|
        invariant 0 <= i <= |rs|
        invariant Valid() && Offsets(reminders) == rs[..i]
        invariant State() == old(State()).(reminders := rs[..i])
      {
        AddReminder(rs[i]);
        i := i + 1;
      }
      assert rs[..i] == rs;
      reminders := reminders[0 := reminders[0].(isFirst := true)];
    }

    /** AssignRecurrence: the "never" option for no rule; otherwise the option
        for the rule's type, with the rule's settings and ending. A type without
        an option throws before anything changes. Neither raises
        IsRecurrenceChanged. */
    method AssignRecurrence(info: Option<RecurrenceInfo>) returns (failure: Option<Error>)
      requires Valid()
      modifies this, typeToItem.Values
      ensures Valid()
      ensures failure.Some? <==> info.Some? && info.value.kind !in typeToItem
      ensures failure.Some? ==> failure == Some(UnsupportedRecurrence) && State() == old(State())
      ensures failure.None? ==> State() == LoadedRule(old(State()), info)
    {
      if info.None? {
        recurrence := never;
        return None;
      }
      var item;
      item, failure := AssignRecurrenceType(info.value);
      if failure.Some? {
        return;
      }
      recurrence := item;
      ending := info.value.ending;
    }

    /** ActualAllowTimeZone: time zones are offered for timed appointments
        when the data source allows them. */
    predicate ActualAllowTimeZone()
      reads this
    {
      allowTimeZone && !allDay
    }

    function Duration(): int
      reads this
    {
      end - start
    }

    /** The Start property setter. */
    method SetStart(value: int)
      modifies this
      ensures start == value && end == old(end) && isDateChanged == old(isDateChanged)
      ensures allDay == old(allDay) && reminders == old(reminders) && hasReminders == old(hasReminders)
      ensures recurrence == old(recurrence) && isRecurrenceChanged == old(isRecurrenceChanged)
      ensures State() == old(State()).(start := value)
    {
      start := value;
    }

    /** The End property setter. */
    method SetEnd(value: int)
      modifies this
      ensures end == value && start == old(start) && isDateChanged == old(isDateChanged)
      ensures allDay == old(allDay) && reminders == old(reminders) && hasReminders == old(hasReminders)
      ensures recurrence == old(recurrence) && isRecurrenceChanged == old(isRecurrenceChanged)
      ensures State() == old(State()).(end := value)
    {
      end := value;
    }

    method SetStartDate(value: int)
      requires Valid()
      modifies this
      ensures Valid()
      ensures Interval(start, end, isDateChanged) == StartDateSet(old(Interval(start, end, isDateChanged)), value)
      ensures State() == old(State()).(start := start, end := end, isDateChanged := isDateChanged)
    {
      var newStart := Date(value) + TimeOfDay(start);
      if start == newStart {
        return;
      }
      var duration := Duration();
      SetStart(newStart);
      // ValidateEnd
      SetEnd(start + duration);
      isDateChanged := true;
    }

    method SetStartTime(value: int)
      requires Valid()
      modifies this
      ensures Valid()
      ensures Interval(start, end, isDateChanged) == StartTimeSet(old(Interval(start, end, isDateChanged)), value)
      ensures State() == old(State()).(start := start, end := end)
    {
      var newStart := Date(start) + value;
      if start == newStart {
        return;
      }
      var duration := Duration();
      SetStart(newStart);
      SetEnd(start + duration);
    }

    method SetEndDate(value: int)
      requires Valid()
      modifies this
      ensures Valid()
      ensures Interval(start, end, isDateChanged) == EndDateSet(old(Interval(start, end, isDateChanged)), value)
      ensures State() == old(State()).(start := start, end := end, isDateChanged := isDateChanged)
    {
      var newEnd := Date(value) + TimeOfDay(end);
      if end == newEnd {
        return;
      }
      var duration := Duration();
      SetEnd(newEnd);
      // ValidateStart
      if end < start {
        SetStart(end - duration);
      }
      isDateChanged := true;
    }

    method SetEndTime(value: int)
      requires Valid()
      modifies this
      ensures Valid()
      ensures Interval(start, end, isDateChanged) == EndTimeSet(old(Interval(start, end, isDateChanged)), value)
      ensures State() == old(State()).(start := start, end := end)
    {
      var newEnd := Date(end) + value;
      if end == newEnd {
        return;
      }
      var duration := Duration();
      SetEnd(newEnd);
      if end < start {
        SetStart(end - duration);
      }
    }

    method SetAllDay(value: bool)
      requires Valid()
      modifies this
      ensures Valid()
      ensures DayFlag(allDay, end) == AllDaySet(old(DayFlag(allDay, end)), value)
      ensures State() == old(State()).(allDay := allDay, end := end)
    {
      if value == allDay {
        return;
      }
      allDay := value;
      if TimeOfDay(end) == 0 {
        if value {
          end := AddDays(end, -1);
        } else {
          end := AddDays(end, 1);
        }
      }
    }

    /** Reminders.Add, followed by the Add notification: HasReminders is
        raised, and a row added at the top is marked first. */
    method AddReminder(timeBeforeStart: int)
      requires Valid()
      modifies this
      ensures Valid()
      ensures reminders == old(reminders) + [Reminder(timeBeforeStart, old(reminders) == [])]
      ensures State() == old(State()).(reminders := old(State()).reminders + [timeBeforeStart])
    {
      var index := |reminders|;
      reminders := reminders + [Reminder(timeBeforeStart, false)];
      if !hasReminders {
        hasReminders := true;
      }
      if index == 0 {
        reminders := reminders[0 := reminders[0].(isFirst := true)];
      }
    }

    /** Reminders.Remove of the row at `index` (IndexOf of the removed row;
        -1 when it is not there), followed by the Remove notification:
        HasReminders drops with the last row, and when the top row goes the
        next one is marked first. */
    method RemoveReminder(index: int)
      requires Valid()
      modifies this
      ensures Valid()
      ensures Offsets(reminders) ==
        if 0 <= index < |old(reminders)| then Offsets(old(reminders))[..index] + Offsets(old(reminders))[index + 1..]
        else Offsets(old(reminders))
      ensures State() == old(State()).(reminders := Offsets(reminders))
    {
      if 0 <= index < |reminders| {
        ghost var before := reminders;
        reminders := reminders[..index] + reminders[index + 1..];
        assert forall i :: 0 <= i < |reminders| ==> reminders[i] == before[if i < index then i else i + 1];
        if hasReminders && |reminders| == 0 {
          hasReminders := false;
        }
        if index == 0 && |reminders| > 0 {
          reminders := reminders[0 := reminders[0].(isFirst := true)];
        }
      }
    }

    /** Reminders.Clear, followed by the Reset notification: no rows, and
        HasReminders is lowered. */
    method ClearReminders()
      requires Valid()
      modifies this
      ensures Valid()
      ensures reminders == [] && !hasReminders
      ensures State() == old(State()).(reminders := [])
    {
      reminders := [];
      if hasReminders {
        hasReminders := false;
      }
    }

    /** OnReminderSelected: a reminder already in the list is not added again. */
    method OnReminderSelected(timeBeforeStart: int)
      requires Valid()
      modifies this
      ensures Valid()
      ensures Offsets(reminders) ==
        if timeBeforeStart in Offsets(old(reminders)) then Offsets(old(reminders)) else Offsets(old(reminders)) + [timeBeforeStart]
      ensures NoDuplicates(Offsets(old(reminders))) ==> NoDuplicates(Offsets(reminders))
      ensures State() == old(State()).(reminders := Offsets(reminders))
    {
      if timeBeforeStart in Offsets(reminders) {
        return;
      }
      AddReminder(timeBeforeStart);
    }

    /** The reminders offered by CreateReminderAddViewModel: the defaults not
        already in the list, in their order. */
    function OfferedReminders(): (offered: seq<int>)
      reads this
      ensures forall t :: t in offered <==> t in DefaultReminders && t !in Offsets(reminders)
    {
      SelectMembers(DefaultReminders, Offsets(reminders), false);
      Drop(DefaultReminders, Offsets(reminders))
    }

    /** OnRecurrenceTypeChanged: a null option is ignored; a different option
        is taken and raises IsRecurrenceChanged. */
    method OnRecurrenceTypeChanged(item: RecurrenceItem?)
      requires Valid()
      requires item != null && item.kind.None? ==> item == never
      modifies this
      ensures Valid()
      ensures item == null || item == old(recurrence) ==> State() == old(State())
      ensures item != null && item != old(recurrence) ==>
        recurrence == item && isRecurrenceChanged &&
        State() == old(State()).(recurrence := State().recurrence, isRecurrenceChanged := true)
    {
      if item == null {
        return;
      }
      if item != recurrence {
        recurrence := item;
        isRecurrenceChanged := true;
      }
    }

    /** OnRecurrencePropertyChanged: any change to the settings of the option
        the editor is subscribed to marks the rule changed. Only
        SetRecurrenceInternal subscribes, so that is the option loaded from
        the record's rule (or "never"), not one picked later through the
        Recurrence setter. */
    method OnRecurrencePropertyChanged()
      requires Valid()
      modifies this
      ensures Valid()
      ensures State() == old(State()).(isRecurrenceChanged := true)
    {
      isRecurrenceChanged := true;
    }

    /** AssignRecurrenceType: the option for the rule's type takes the rule's
        settings; a type the editor has no option for throws. */
    method AssignRecurrenceType(info: RecurrenceInfo) returns (item: RecurrenceItem?, failure: Option<Error>)
      requires Valid()
      modifies typeToItem.Values
      ensures failure.Some? <==> info.kind !in typeToItem
      ensures failure.Some? ==> failure == Some(UnsupportedRecurrence) && item == null
      ensures failure.None? ==> item == typeToItem[info.kind] && item.settings == info.settings && item.kind == Some(info.kind)
      ensures forall t :: t in typeToItem && t != info.kind ==> typeToItem[t].settings == old(typeToItem[t].settings)
    {
      if info.kind !in typeToItem {
        return null, Some(UnsupportedRecurrence);
      }
      item := typeToItem[info.kind];
      item.settings := info.settings;
      failure := None;
    }

    /** PopulateRecurrence, writing the chosen option and ending into the rule. */
    method PopulateRecurrence(info: Option<RecurrenceInfo>, newStart: Option<int>) returns (r: Option<RecurrenceInfo>)
      requires Valid()
      ensures r == PopulatedRule(State(), info, newStart)
    {
      if recurrence == never {
        return None;
      }
      var rule: RecurrenceInfo;
      if info.None? {
        rule := RecurrenceInfo(Daily, 0, 0, NoEndDate);
        rule := rule.(start := start);
      } else if newStart.Some? {
        rule := info.value.(start := newStart.value);
      } else {
        rule := info.value;
      }
      // Recurrence.Populate
      rule := rule.(kind := recurrence.kind.value, settings := recurrence.settings);
      // RecurrenceEndingModel.Populate
      rule := rule.(ending := ending);
      r := Some(rule);
    }

    /** PopulateReminders: the editor's offsets split into those the record has
        and those it has not; when the record's list differs, the record's
        reminders that are not kept are removed one by one and the new ones
        appended. */
    method PopulateReminders(current: seq<int>) returns (r: seq<int>)
      ensures r == Merged(current, Offsets(reminders))
    {
      var editor := Offsets(reminders);
      var oldReminders: seq<int> := [];
      var newReminders: seq<int> := [];
      var i := 0;
      while i < |reminders|
        invariant 0 <= i <= |reminders|
        invariant oldReminders == Keep(editor[..i], current)
        invariant newReminders == Drop(editor[..i], current)
      {
        SelectSnoc(editor, i, current, true);
        SelectSnoc(editor, i, current, false);
        var t := reminders[i].timeBeforeStart;
        if t !in current {
          newReminders := newReminders + [t];
        } else {
          oldReminders := oldReminders + [t];
        }
        i := i + 1;
      }
      assert editor[..i] == editor;
      r := current;
      if |oldReminders| != |current| || |newReminders| != 0 {
        var toRemove: seq<int> := [];
        var j := 0;
        while j < |current|
          invariant 0 <= j <= |current|
          invariant toRemove == Drop(current[..j], oldReminders)
        {
          SelectSnoc(current, j, oldReminders, false);
          if current[j] !in oldReminders {
            toRemove := toRemove + [current[j]];
          }
          j := j + 1;
        }
        assert current[..j] == current;
        var k := 0;
        while k < |toRemove|
          invariant 0 <= k <= |toRemove|
          invariant RemoveEach(r, toRemove[k..]) == RemoveEach(current, toRemove)
        {
          assert toRemove[k..][0] == toRemove[k] && toRemove[k..][1..] == toRemove[k + 1..];
          r := RemoveFirst(r, toRemove[k]);
          k := k + 1;
        }
        r := r + newReminders;
      }
    }

    /** The last part of PopulateAppointmentValues: the recurrence rule, the
        type and the reminders. */
    method WriteRuleAndReminders(model: Item) returns (m: Item)
      requires Valid()
      ensures m == WrittenRule(State(), model)
    {
      m := model;
      var info := PopulateRecurrence(m.recurrence, NewStartForRecurrence(State(), m));
      if m.recurrence.Some? && info.Some? {
        // the existing rule was populated in place
        m := m.(recurrence := info);
      }
      if !IsOccurrence(m.kind) && allowRecurrence && info.Some? {
        m := m.(kind := Pattern, recurrence := info);
      }
      if m.kind == Pattern && info.None? {
        m := m.(kind := Normal);
      }
      assert m == WrittenType(model, info, allowRecurrence);
      var written := PopulateReminders(m.reminders);
      m := m.(reminders := written);
    }

    /** The first writes of PopulateAppointmentValues: the all-day flag, the
        start and end, the subject. */
    method WriteTimes(model: Item) returns (m: Item)
      ensures m == WrittenTimes(State(), storage.engine, model)
    {
      var z := storage.engine;
      var tz := timeZone;
      m := model.(allDay := allDay);
      if m.kind == Pattern {
        m := m.(start := if allDay then m.start else Date(ToClientTime(z, m.start, tz)) + TimeOfDay(start));
        m := m.(end := if allDay then m.end else Date(ToClientTime(z, m.end, tz)) + TimeOfDay(end));
      } else {
        m := m.(start := if allDay then start else ToClientTime(z, start, tz));
        if allDay {
          m := m.(end := if TimeOfDay(end) == 0 then AddDays(end, 1) else end);
        } else {
          m := m.(end := ToClientTime(z, end, tz));
        }
      }
      m := m.(subject := subject);
    }

    /** PopulateAppointmentValues, writing the editor's fields into the record
        in the source's order; a null label or status stops it with the
        writes made so far. */
    method PopulateAppointmentValues(model: Item) returns (m: Item, failure: Option<Error>)
      requires Valid()
      ensures Populate(m, failure) == Populated(State(), storage.engine, model)
    {
      var z := storage.engine;
      var tz := timeZone;
      m := WriteTimes(model);
      if labelId.None? {
        return m, Some(NullLabel);
      }
      m := m.(labelId := labelId.value);
      if statusId.None? {
        return m, Some(NullStatus);
      }
      m := m.(statusId := statusId.value);
      ghost var before := m;
      if !(IsDefaultTimeZone(z, tz) && IsNullOrEmpty(m.timeZoneId)) {
        m := m.(timeZoneId := Some(if IsDefaultTimeZone(z, tz) then "" else tz.value));
      }
      assert m == WrittenZone(State(), z, before);
      m := WriteRuleAndReminders(m);
      failure := None;
    }

    method CreateNewAppointment() returns (failure: Option<Error>)
      requires Valid() && storage.store.Valid()
      modifies storage
      ensures Effect(storage.store, failure) == CreateNew(old(storage.store), State(), storage.engine)
    {
      var item := NewItem();
      var m, f := PopulateAppointmentValues(item);
      if f.Some? {
        return f;
      }
      var _ := storage.Add(m);
      failure := None;
    }

    method PopulateActualAppointment() returns (failure: Option<Error>)
      requires Valid() && appointment.Some? && appointment.value in storage.store.items
      modifies storage
      ensures Effect(storage.store, failure) == PopulateStored(old(storage.store), State(), storage.engine, appointment.value)
    {
      var m, f := PopulateAppointmentValues(storage.store.items[appointment.value]);
      storage.Put(appointment.value, m);
      failure := f;
    }

    method PopulateActualAppointmentPattern() returns (failure: Option<Error>)
      requires Valid() && appointment.Some?
      modifies storage
      ensures Effect(storage.store, failure) == PopulatePattern(old(storage.store), State(), storage.engine, appointment.value)
    {
      var pattern := GetPattern(storage.store, appointment.value);
      if pattern.None? {
        return Some(NullPattern);
      }
      var m, f := PopulateAppointmentValues(storage.store.items[pattern.value]);
      storage.Put(pattern.value, m);
      failure := f;
    }

    method CreateNewPatternByOccurrence() returns (failure: Option<Error>)
      requires Valid() && storage.store.Valid() && appointment.Some? && appointment.value in storage.store.items
      modifies storage
      ensures Effect(storage.store, failure) ==
        NewPatternByOccurrence(old(storage.store), State(), storage.engine, appointment.value)
    {
      var oldPattern := GetPattern(storage.store, appointment.value);
      if storage.store.items[appointment.value].recurrenceIndex <= 0 {
        if oldPattern.None? {
          return Some(NullPattern);
        }
        var m, f := PopulateAppointmentValues(storage.store.items[oldPattern.value]);
        storage.Put(oldPattern.value, m);
        failure := f;
      } else {
        storage.StopPatternBeforeOccurrence(appointment.value);
        var actualPattern := NewItem();
        var m, f := PopulateAppointmentValues(actualPattern);
        if f.Some? {
          return f;
        }
        var _ := storage.Add(m);
        failure := None;
      }
    }

    /** SaveChanges. `answer` is the action the user picks in the dialog; it
        is only consulted when the dialog is shown. */
    method SaveChanges(answer: string) returns (outcome: Outcome)
      requires Valid() && storage.store.Valid()
      requires appointment.Some? ==> appointment.value in storage.store.items
      modifies storage
      ensures SaveResult(storage.store, outcome) ==
        SaveEffect(old(storage.store), State(), storage.engine, if hasDialogService then Some(answer) else None)
    {
      if appointment.None? {
        var f := CreateNewAppointment();
        return if f.Some? then Threw(f.value) else Returned(true);
      }
      if storage.store.items[appointment.value].kind != Occurrence {
        var f := PopulateActualAppointment();
        return if f.Some? then Threw(f.value) else Returned(true);
      }
      if isRecurrenceChanged {
        if isDateChanged {
          var f := CreateNewPatternByOccurrence();
          if f.Some? {
            return Threw(f.value);
          }
          storage.RemoveAppointment(GetPattern(storage.store, appointment.value));
        } else {
          var f := PopulateActualAppointmentPattern();
          if f.Some? {
            return Threw(f.value);
          }
        }
        return Returned(true);
      }
      if !hasDialogService {
        return Threw(MissingDialogService);
      }
      if answer == EditOccurrenceAction {
        var f := PopulateActualAppointment();
        return if f.Some? then Threw(f.value) else Returned(true);
      } else if answer == EditFutureOccurrencesAction {
        var f := CreateNewPatternByOccurrence();
        return if f.Some? then Threw(f.value) else Returned(true);
      } else if answer == EditPatternAction {
        var f := PopulateActualAppointmentPattern();
        return if f.Some? then Threw(f.value) else Returned(true);
      }
      return Returned(false);
    }
  }
}
