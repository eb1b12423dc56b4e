/** The appointment detail page's view-model: what it shows of a stored
    appointment (its interval, label colour, status caption, reminders,
    recurrence type and time-zone name) and RemoveAppointment, which asks
    the user which part of a series to delete and deletes it. */
module AppointmentDetail {
  import opened Times
  import opened Scheduler
  import AppointmentEdit

  const StatusFormat: string := "Status: {0}"
  const RecurrenceFormat: string := "Repeat {0}"

  const RemoveRecurringAppointmentTitle: string := "This is a recurring appointment."
  const RemoveOccurrenceAction: string := "Delete this appointment only"
  const RemoveFutureOccurrencesAction: string := "Delete this and all future appointments"
  const RemovePatternAction: string := "Delete all appointments in the series"
  const CancelRemoveOccurrence: string := "Cancel"
  const RemoveAppointmentTitle: string := "Delete appointment?"
  const AcceptAppointmentRemoveAction: string := "Yes"
  const CancelAppointmentRemoveAction: string := "No"

  // ---- Formatted texts and flags ---------------------------------------------

  /** RecurrenceType.ToString().ToLower(). */
  function KindName(t: RecurrenceType): string {
    match t
    case Minutely => "minutely"
    case Hourly => "hourly"
    case Daily => "daily"
    case Weekly => "weekly"
    case Monthly => "monthly"
    case Yearly => "yearly"
  }

  /** FormattedRecurrenceType: "Repeat " and the lower-case type name, or
      empty without a recurrence. */
  function FormattedRecurrenceType(t: Option<RecurrenceType>): (text: string)
    ensures t.None? ==> text == ""
    ensures t.Some? ==> text == "Repeat " + KindName(t.value)
  {
    if t.Some? then "Repeat " + KindName(t.value) else ""
  }

  /** Different recurrence types never read alike. */
  lemma FormattedRecurrenceTypeInjective(a: Option<RecurrenceType>, b: Option<RecurrenceType>)
    ensures FormattedRecurrenceType(a) == FormattedRecurrenceType(b) ==> a == b
  {
    if a.Some? && b.Some? && FormattedRecurrenceType(a) == FormattedRecurrenceType(b) {
      assert FormattedRecurrenceType(a)[7..] == KindName(a.value);
      assert FormattedRecurrenceType(b)[7..] == KindName(b.value);
    }
  }

  /** FormattedStatusCaption: "Status: " and the caption, or empty for a null
      or empty caption. */
  function FormattedStatusCaption(caption: Option<string>): (text: string)
    ensures text == "" <==> IsNullOrEmpty(caption)
    ensures !IsNullOrEmpty(caption) ==> |text| == 8 + |caption.value|
    ensures !IsNullOrEmpty(caption) ==> text[..8] == "Status: " && text[8..] == caption.value
  {
    if !IsNullOrEmpty(caption) then "Status: " + caption.value else ""
  }

  predicate HasLabel(color: Option<int>) {
    color.Some?
  }

  predicate HasRecurrence(t: Option<RecurrenceType>) {
    t.Some?
  }

  /** HasReminders: a list that is there and not empty. */
  predicate HasReminders(rows: Option<seq<Reminder>>) {
    rows.Some? && |rows.value| > 0
  }

  predicate HasTimeZone(name: Option<string>) {
    !IsNullOrEmpty(name)
  }

  predicate HasStatus(caption: Option<string>) {
    !IsNullOrEmpty(caption)
  }

  /** The recurrence line is shown exactly when there is a recurrence, and the
      status line exactly when there is a caption to show. */
  lemma FlagsMatchTexts(t: Option<RecurrenceType>, caption: Option<string>)
    ensures HasRecurrence(t) <==> FormattedRecurrenceType(t) != ""
    ensures HasStatus(caption) <==> FormattedStatusCaption(caption) != ""
  {
  }

  // ---- The interval ------------------------------------------------------------

  /** The sameDate argument of UpdateTimeText: start and end on one date, or
      the end exactly at the midnight after the start's date. */
  function SameDate(start: int, end: int): (same: bool)
    ensures same <==> Date(start) == Date(end) || end == Date(start) + TicksPerDay
  {
    var d := AddDays(Date(start), 1);
    assert Date(end) == d && TimeOfDay(end) == 0 <==> end == Date(start) + TicksPerDay by {
      DateAndTime(Date(start), 0);
      if end == Date(start) + TicksPerDay {
        DateAndTime(Date(start) + TicksPerDay, 0);
      }
    }
    Date(start) == Date(end) || (Date(end) == d && TimeOfDay(end) == 0)
  }

  /** The thisYear argument: both ends in the current year. DateTime holds
      no instant before the first day of year 1. */
  function ThisYear(start: int, end: int, nowYear: int): bool
    requires start >= 0 && end >= 0
  {
    Year(end) == nowYear && Year(start) == nowYear
  }

  /** The interval UpdateTimeText passes to the format: an all-day record's
      own times with an end at midnight shown a day early; a timed record's
      times as stored when it names no zone, converted from its zone
      otherwise. */
  function DisplayedInterval(m: Item, z: TimeZoneEngine): (iv: (int, int))
    ensures m.allDay ==> iv.0 == m.start && TimeOfDay(iv.1) == TimeOfDay(m.end)
    ensures m.allDay && TimeOfDay(m.end) == 0 ==> Date(iv.1) == Date(m.end) - TicksPerDay
    ensures m.allDay && TimeOfDay(m.end) != 0 ==> iv.1 == m.end
  {
    if m.allDay then (m.start, if TimeOfDay(m.end) == 0 then AddDays(m.end, -1) else m.end)
    else if IsNullOrEmpty(m.timeZoneId) then (m.start, m.end)
    else (z.fromOperationTime(m.start, m.timeZoneId.value), z.fromOperationTime(m.end, m.timeZoneId.value))
  }

  /** An all-day appointment covering the single day from one midnight to
      the next is shown on one date, with its end on the start's date. */
  lemma AllDaySingleDayShown(m: Item, z: TimeZoneEngine)
    requires m.allDay && TimeOfDay(m.start) == 0 && m.end == m.start + TicksPerDay
    ensures SameDate(m.start, m.end)
    ensures DisplayedInterval(m, z) == (m.start, m.start)
  {
    assert Date(m.start) == m.start;
    DateAndTime(m.start + TicksPerDay, 0);
  }

  /** The detail page shows an all-day appointment, and a timed one with a
      zone of its own, at the times the editor opens it with. */
  lemma {:induction false} ShownAsInEditor(m: Item, z: TimeZoneEngine)
    requires m.allDay || !IsNullOrEmpty(m.timeZoneId)
    ensures DisplayedInterval(m, z) == AppointmentEdit.LoadedTimes(m, z)
  {
    if m.allDay && TimeOfDay(m.end) == 0 {
      assert AddDays(m.end, -1) == m.end - TicksPerDay;
    }
  }

  // ---- The interval format -------------------------------------------------------

  /** The date and time patterns of the current culture. */
  datatype Culture = Culture(monthDayPattern: string, longDatePattern: string, shortTimePattern: string)

  predicate NoBraces(s: string) {
    forall i :: 0 <= i < |s| ==> s[i] != '{' && s[i] != '}'
  }

  /** String.Replace: every occurrence of `pattern`, from left to right and
      without overlaps, replaced by `replacement`. */
  function ReplaceAll(s: string, pattern: string, replacement: string): (r: string)
    requires |pattern| > 0
    ensures NoBraces(s) && NoBraces(replacement) ==> NoBraces(r)
    ensures |replacement| <= |pattern| ==> |r| <= |s|
    decreases |s|
  {
    if |s| < |pattern| then s
    else if s[..|pattern|] == pattern then
      var rest := ReplaceAll(s[|pattern|..], pattern, replacement);
      assert NoBraces(s) ==> NoBraces(s[|pattern|..]) by {
        if NoBraces(s) {
          forall i | 0 <= i < |s[|pattern|..]| ensures s[|pattern|..][i] != '{' && s[|pattern|..][i] != '}' {
            assert s[|pattern|..][i] == s[i + |pattern|];
          }
        }
      }
      replacement + rest
    else
      var rest := ReplaceAll(s[1..], pattern, replacement);
      assert NoBraces(s) ==> NoBraces(s[1..]) by {
        if NoBraces(s) {
          forall i | 0 <= i < |s[1..]| ensures s[1..][i] != '{' && s[1..][i] != '}' {
            assert s[1..][i] == s[i + 1];
          }
        }
      }
      [s[0]] + rest
  }

  /** The date pattern of the interval: the culture's month-day pattern within
      the current year, its long date pattern otherwise, with full month names
      abbreviated. */
  function DatePattern(thisYear: bool, c: Culture): (p: string)
    ensures NoBraces(c.monthDayPattern) && NoBraces(c.longDatePattern) ==> NoBraces(p)
  {
    ReplaceAll(if thisYear then c.monthDayPattern else c.longDatePattern, "MMMM", "MMM")
  }

  /** GetIntervalFormat: the composite format UpdateTimeText formats the
      shown start ({0}) and end ({1}) with. */
  function GetIntervalFormat(allDay: bool, sameDate: bool, thisYear: bool, c: Culture): (f: string)
    ensures |f| >= 9 && f[..9] == "{0:dddd, "
  {
    var datePattern := DatePattern(thisYear, c);
    var timePattern := c.shortTimePattern;
    if allDay then
      if sameDate then "{0:dddd, " + datePattern + "}"
      else "{0:dddd, " + datePattern + "} - {1:dddd, " + datePattern + "}"
    else if sameDate then "{0:dddd, " + datePattern + " \U{2022} " + timePattern + "} - {1:" + timePattern + "}"
    else "{0:dddd, " + datePattern + " " + timePattern + "} - {1:dddd, " + datePattern + " " + timePattern + "}"
  }

  lemma NoBracesAppend(a: string, b: string)
    ensures NoBraces(a + b) <==> NoBraces(a) && NoBraces(b)
  {
    if NoBraces(a + b) {
      forall i | 0 <= i < |a| ensures a[i] != '{' && a[i] != '}' {
        assert a[i] == (a + b)[i];
      }
      forall i | 0 <= i < |b| ensures b[i] != '{' && b[i] != '}' {
        assert b[i] == (a + b)[|a| + i];
      }
    }
  }

  /** The four formats, each read as placeholders around brace-free parts. */
  lemma FormatShapes(d: string, t: string)
    ensures "{0:dddd, " + d + "}" == "{0:" + ("dddd, " + d) + "}"
    ensures "{0:dddd, " + d + "} - {1:dddd, " + d + "}" == "{0:" + ("dddd, " + d) + "} - {1:" + ("dddd, " + d) + "}"
    ensures "{0:dddd, " + d + " \U{2022} " + t + "} - {1:" + t + "}"
         == "{0:" + ("dddd, " + d + " \U{2022} " + t) + "} - {1:" + t + "}"
    ensures "{0:dddd, " + d + " " + t + "} - {1:dddd, " + d + " " + t + "}"
         == "{0:" + ("dddd, " + d + " " + t) + "} - {1:" + ("dddd, " + d + " " + t) + "}"
  {
    assert "{0:dddd, " == "{0:" + "dddd, ";
    assert "} - {1:dddd, " == "} - {1:" + "dddd, ";
  }

  /** With culture patterns free of braces, the format holds a single
      placeholder, for the start, exactly for an all-day appointment on one
      date; every other format holds the start's and then the end's. */
  lemma IntervalFormatPlaceholders(allDay: bool, sameDate: bool, thisYear: bool, c: Culture)
    requires NoBraces(c.monthDayPattern) && NoBraces(c.longDatePattern) && NoBraces(c.shortTimePattern)
    ensures allDay && sameDate ==>
      exists x :: NoBraces(x) && GetIntervalFormat(allDay, sameDate, thisYear, c) == "{0:" + x + "}"
    ensures !(allDay && sameDate) ==>
      exists x, y :: NoBraces(x) && NoBraces(y) &&
        GetIntervalFormat(allDay, sameDate, thisYear, c) == "{0:" + x + "} - {1:" + y + "}"
  {
    var d := DatePattern(thisYear, c);
    var t := c.shortTimePattern;
    var day := "dddd, " + d;
    NoBracesAppend("dddd, ", d);
    FormatShapes(d, t);
    if allDay && sameDate {
      assert NoBraces(day);
    } else if allDay {
      assert NoBraces(day);
    } else if sameDate {
      NoBracesAppend(day, " \U{2022} ");
      NoBracesAppend(day + " \U{2022} ", t);
      assert NoBraces(day + " \U{2022} " + t);
    } else {
      NoBracesAppend(day, " ");
      NoBracesAppend(day + " ", t);
      assert NoBraces(day + " " + t);
    }
  }

  /** TimeText before rendering: the format and the two instants it is
      applied to. */
  datatype TimeText = TimeText(format: string, start: int, end: int)

  /** UpdateTimeText of a record, for a culture and the current year. */
  function TimeTextOf(m: Item, z: TimeZoneEngine, c: Culture, nowYear: int): (t: TimeText)
    requires m.start >= 0 && m.end >= 0
    ensures (t.start, t.end) == DisplayedInterval(m, z)
    ensures t.format == GetIntervalFormat(m.allDay, SameDate(m.start, m.end), ThisYear(m.start, m.end, nowYear), c)
  {
    var iv := DisplayedInterval(m, z);
    TimeText(GetIntervalFormat(m.allDay, SameDate(m.start, m.end), ThisYear(m.start, m.end, nowYear), c), iv.0, iv.1)
  }

  // ---- Label, status, reminders, zone ----------------------------------------------

  /** UpdateLabelColor: the colour of the first listed label with the
      record's label id, or null when none has it. */
  function LabelColorOf(labels: seq<LabelItem>, id: int): (color: Option<int>)
    ensures color.None? <==> forall i :: 0 <= i < |labels| ==> labels[i].id != id
    ensures color.Some? ==> exists i :: FirstAt(labels, LabelIdOf, id, i) && labels[i].color == color.value
  {
    var found := FirstWithId(labels, LabelIdOf, id);
    if found.Some? then Some(found.value.color) else None
  }

  /** UpdateStatusCaption: the caption of the first listed status with the
      record's status id, or null when none has it. */
  function StatusCaptionOf(statuses: seq<StatusItem>, id: int): (caption: Option<string>)
    ensures (forall i :: 0 <= i < |statuses| ==> statuses[i].id != id) ==> caption.None?
    ensures caption.Some? ==> exists i :: FirstAt(statuses, StatusIdOf, id, i) && statuses[i].caption == caption
    ensures forall i :: FirstAt(statuses, StatusIdOf, id, i) ==> caption == statuses[i].caption
  {
    var found := FirstWithId(statuses, StatusIdOf, id);
    if found.Some? then found.value.caption else None
  }

  /** The detail page shows a label colour exactly when the editor finds a
      label to select for the record, and it is that label's colour. */
  lemma HasLabelAsInEditor(labels: seq<LabelItem>, id: int)
    ensures HasLabel(LabelColorOf(labels, id)) <==> AppointmentEdit.ListedId(labels, LabelIdOf, id).Some?
    ensures HasLabel(LabelColorOf(labels, id)) ==>
      exists i :: 0 <= i < |labels| && labels[i].id == id && labels[i].color == LabelColorOf(labels, id).value
  {
  }

  /** UpdateReminders: one row per reminder of the record, the first row
      alone marked first. */
  function DetailReminders(rs: seq<int>): (rows: seq<Reminder>)
    ensures |rows| == |rs|
  {
    seq(|rs|, i requires 0 <= i < |rs| => Reminder(rs[i], i == 0))
  }

  /** The detail page draws the record's reminders as the editor does: the
      same offsets in the same order, the top row alone marked first. */
  lemma DetailRowsAsInEditor(rs: seq<int>)
    ensures AppointmentEdit.Offsets(DetailReminders(rs)) == rs
    ensures AppointmentEdit.RowsValid(DetailReminders(rs), rs != [])
    ensures HasReminders(Some(DetailReminders(rs))) <==> rs != []
  {
  }

  /** UpdateTimeZoneName: the display name of the record's zone, or null when
      it names none or the zone is not known. */
  function TimeZoneNameOf(z: TimeZoneEngine, timeZoneId: Option<string>): (name: Option<string>)
    ensures name.Some? <==> timeZoneId.Some? && timeZoneId.value in z.zones
    ensures name.Some? ==> name.value == z.zones[timeZoneId.value]
  {
    if timeZoneId.None? || timeZoneId.value !in z.zones then None else Some(z.zones[timeZoneId.value])
  }

  /** The time-zone line is shown exactly when the record names a known zone
      whose display name is not empty. */
  lemma TimeZoneShown(z: TimeZoneEngine, timeZoneId: Option<string>)
    ensures HasTimeZone(TimeZoneNameOf(z, timeZoneId)) <==>
      timeZoneId.Some? && timeZoneId.value in z.zones && z.zones[timeZoneId.value] != ""
  {
  }

  /** Everything the page shows of a record. */
  datatype View = View(
    timeText: TimeText,
    labelColor: Option<int>,
    statusCaption: Option<string>,
    reminders: seq<Reminder>,
    recurrenceType: Option<RecurrenceType>,
    timeZoneName: Option<string>)

  // ---- Removal -----------------------------------------------------------------------

  /** The user's answers: the scope chosen in the recurring-appointment dialog
      and the answer to the delete confirmation. */
  datatype Dialog = Dialog(choice: string, confirmed: bool)

  /** The storage after RemoveAppointment and how the call ended. */
  datatype Removal = Removal(store: Store, outcome: Outcome)

  /** RemovePattern: the record's pattern and its occurrences are removed,
      nothing when the pattern is not found. */
  function PatternRemoved(st: Store, id: Id): (r: Store)
    ensures GetPattern(st, id).None? ==> r == st
    ensures GetPattern(st, id).Some? ==>
      GetPattern(st, id).value !in r.items &&
      forall k :: k in r.items ==> k in st.items && st.items[k].pattern != GetPattern(st, id)
  {
    Removed(st, GetPattern(st, id))
  }

  /** RemoveRecurringAppointment for the chosen scope. */
  function RecurringRemoval(st: Store, id: Id, choice: string): (r: Removal)
    requires id in st.items
  {
    var m := st.items[id];
    if choice == RemoveOccurrenceAction then
      Removal(Replaced(st, id, m.(kind := DeletedOccurrence)), Returned(true))
    else if choice == RemoveFutureOccurrencesAction then
      Removal(if m.recurrenceIndex > 0 then StoppedBefore(st, id) else PatternRemoved(st, id), Returned(true))
    else if choice == RemovePatternAction then
      Removal(PatternRemoved(st, id), Returned(true))
    else
      Removal(st, Returned(false))
  }

  /** RemoveNormalAppointment: the record goes exactly when the user
      confirms, and the confirmation is the result. */
  function NormalRemoval(st: Store, id: Id, confirmed: bool): (r: Removal)
  {
    Removal(if confirmed then Removed(st, Some(id)) else st, Returned(confirmed))
  }

  /** RemoveAppointment: without a dialog service it throws before anything
      changes; an occurrence takes the recurring path, any other record the
      normal one. */
  function RemoveEffect(st: Store, id: Id, dialog: Option<Dialog>): (r: Removal)
    requires id in st.items
  {
    if dialog.None? then Removal(st, Threw(MissingDialogService))
    else if IsOccurrence(st.items[id].kind) then RecurringRemoval(st, id, dialog.value.choice)
    else NormalRemoval(st, id, dialog.value.confirmed)
  }

  lemma RemoveWithoutDialog(st: Store, id: Id)
    requires id in st.items
    ensures RemoveEffect(st, id, None) == Removal(st, Threw(MissingDialogService))
  {
  }

  /** "Delete this appointment only" marks the occurrence deleted and takes
      nothing out of the storage. */
  lemma RemoveThisOnly(st: Store, id: Id, confirmed: bool)
    requires id in st.items && IsOccurrence(st.items[id].kind)
    ensures var r := RemoveEffect(st, id, Some(Dialog(RemoveOccurrenceAction, confirmed)));
      r.outcome == Returned(true) && r.store.items.Keys == st.items.Keys &&
      r.store.items[id] == st.items[id].(kind := DeletedOccurrence) &&
      forall k :: k in st.items && k != id ==> r.store.items[k] == st.items[k]
  {
  }

  /** "Delete this and all future appointments" on a later occurrence: the
      series now ends after the occurrences before it, and nothing else
      changes. */
  lemma RemoveFutureLater(st: Store, id: Id, confirmed: bool)
    requires id in st.items && IsOccurrence(st.items[id].kind) && st.items[id].recurrenceIndex > 0
    requires GetPattern(st, id).Some? && st.items[GetPattern(st, id).value].recurrence.Some?
    ensures var r := RemoveEffect(st, id, Some(Dialog(RemoveFutureOccurrencesAction, confirmed)));
      var p := GetPattern(st, id).value;
      r.outcome == Returned(true) && r.store.items.Keys == st.items.Keys &&
      r.store.items[p].recurrence.value.ending == EndAfterOccurrences(st.items[id].recurrenceIndex) &&
      r.store.items[p] == st.items[p].(recurrence := r.store.items[p].recurrence) &&
      forall k :: k in st.items && k != p ==> r.store.items[k] == st.items[k]
  {
  }

  /** "Delete this and all future appointments" on the first occurrence
      deletes the whole series, as "Delete all appointments in the series"
      does. */
  lemma RemoveFutureAtFirstIsSeries(st: Store, id: Id, confirmed: bool)
    requires id in st.items && IsOccurrence(st.items[id].kind) && st.items[id].recurrenceIndex <= 0
    ensures RemoveEffect(st, id, Some(Dialog(RemoveFutureOccurrencesAction, confirmed)))
         == RemoveEffect(st, id, Some(Dialog(RemovePatternAction, confirmed)))
  {
  }

  /** "Delete all appointments in the series": the pattern and every record of
      the series leave the storage, this occurrence among them, and the rest
      stays; without a pattern nothing changes. */
  lemma RemoveSeries(st: Store, id: Id, confirmed: bool)
    requires id in st.items && IsOccurrence(st.items[id].kind)
    ensures var r := RemoveEffect(st, id, Some(Dialog(RemovePatternAction, confirmed)));
      r.outcome == Returned(true) &&
      (GetPattern(st, id).None? ==> r.store == st) &&
      (GetPattern(st, id).Some? ==>
        id !in r.store.items &&
        forall k :: k in st.items ==>
          (k in r.store.items <==> k != GetPattern(st, id).value && st.items[k].pattern != GetPattern(st, id)))
  {
  }

  /** Any other answer, Cancel among them, deletes nothing and returns false. */
  lemma RemoveCancelled(st: Store, id: Id, choice: string, confirmed: bool)
    requires id in st.items && IsOccurrence(st.items[id].kind)
    requires choice != RemoveOccurrenceAction && choice != RemoveFutureOccurrencesAction && choice != RemovePatternAction
    ensures RemoveEffect(st, id, Some(Dialog(choice, confirmed))) == Removal(st, Returned(false))
  {
  }

  /** Any record that is not an occurrence is removed if and only if the user
      confirms (a pattern with its series), and the result is the answer. */
  lemma RemoveNormal(st: Store, id: Id, choice: string, confirmed: bool)
    requires id in st.items && !IsOccurrence(st.items[id].kind)
    ensures var r := RemoveEffect(st, id, Some(Dialog(choice, confirmed)));
      r.outcome == Returned(confirmed) &&
      (id in r.store.items <==> !confirmed) &&
      (!confirmed ==> r.store == st) &&
      (confirmed ==> forall k :: k in st.items ==> (k in r.store.items <==> k != id && st.items[k].pattern != Some(id)))
  {
  }

  /** Whatever the user answers, no record is added or altered beyond the
      chosen scope's pattern or occurrence, and no identity is reused. */
  lemma RemoveNeverAdds(st: Store, id: Id, dialog: Option<Dialog>)
    requires id in st.items
    ensures var r := RemoveEffect(st, id, dialog);
      r.store.items.Keys <= st.items.Keys && r.store.nextId == st.nextId &&
      forall k :: k in r.store.items && k != id && Some(k) != GetPattern(st, id) ==> r.store.items[k] == st.items[k]
  {
  }

  // ---- The view-model --------------------------------------------------------------

  class AppointmentDetailViewModel {
    const storage: SchedulerStorage
    const appointment: Id
    /** Whether a dialog service was injected. */
    const hasDialogService: bool
    const culture: Culture
    /** DateTime.Now.Year. */
    const nowYear: int

    var timeText: TimeText
    var labelColor: Option<int>
    var statusCaption: Option<string>
    var reminders: seq<Reminder>
    var recurrenceType: Option<RecurrenceType>
    var timeZoneName: Option<string>

    function CurrentView(): View
      reads this
    {
      View(timeText, labelColor, statusCaption, reminders, recurrenceType, timeZoneName)
    }

    /** The page as it shows a record. */
    static function Shown(m: Item, storage: SchedulerStorage, c: Culture, nowYear: int): View
      requires m.start >= 0 && m.end >= 0
    {
      View(TimeTextOf(m, storage.engine, c, nowYear),
           LabelColorOf(storage.labelItems, m.labelId),
           StatusCaptionOf(storage.statusItems, m.statusId),
           DetailReminders(m.reminders),
           if m.recurrence.Some? then Some(m.recurrence.value.kind) else None,
           TimeZoneNameOf(storage.engine, m.timeZoneId))
    }

    /** The constructor fills every field from the record. */
    constructor (appointment: Id, storage: SchedulerStorage, dialogService: bool, culture: Culture, nowYear: int)
      requires appointment in storage.store.items
      requires storage.store.items[appointment].start >= 0 && storage.store.items[appointment].end >= 0
      ensures this.appointment == appointment && this.storage == storage && hasDialogService == dialogService
      ensures this.culture == culture && this.nowYear == nowYear
      ensures CurrentView() == Shown(storage.store.items[appointment], storage, culture, nowYear)
    {
      this.appointment := appointment;
      this.storage := storage;
      hasDialogService := dialogService;
      this.culture := culture;
      this.nowYear := nowYear;
      new;
      UpdateTimeText();
      UpdateLabelColor();
      UpdateStatusCaption();
      UpdateReminders();
      UpdateRecurrenceType();
      UpdateTimeZoneName();
    }

    method UpdateTimeText()
      requires appointment in storage.store.items
      requires storage.store.items[appointment].start >= 0 && storage.store.items[appointment].end >= 0
      modifies this
      ensures CurrentView() == old(CurrentView()).(timeText :=
        TimeTextOf(storage.store.items[appointment], storage.engine, culture, nowYear))
    {
      var m := storage.store.items[appointment];
      var aptStart, aptEnd;
      if m.allDay {
        aptStart := m.start;
        aptEnd := m.end;
        if TimeOfDay(m.end) == 0 {
          aptEnd := AddDays(aptEnd, -1);
        }
      } else if IsNullOrEmpty(m.timeZoneId) {
        aptStart := m.start;
        aptEnd := m.end;
      } else {
        aptStart := storage.engine.fromOperationTime(m.start, m.timeZoneId.value);
        aptEnd := storage.engine.fromOperationTime(m.end, m.timeZoneId.value);
      }
      var format := GetIntervalFormat(m.allDay, SameDate(m.start, m.end), ThisYear(m.start, m.end, nowYear), culture);
      timeText := TimeText(format, aptStart, aptEnd);
    }

    method UpdateLabelColor()
      requires appointment in storage.store.items
      modifies this
      ensures CurrentView() == old(CurrentView()).(labelColor :=
        LabelColorOf(storage.labelItems, storage.store.items[appointment].labelId))
    {
      var found := FirstWithId(storage.labelItems, LabelIdOf, storage.store.items[appointment].labelId);
      labelColor := if found.Some? then Some(found.value.color) else None;
    }

    method UpdateStatusCaption()
      requires appointment in storage.store.items
      modifies this
      ensures CurrentView() == old(CurrentView()).(statusCaption :=
        StatusCaptionOf(storage.statusItems, storage.store.items[appointment].statusId))
    {
      var item := FirstWithId(storage.statusItems, StatusIdOf, storage.store.items[appointment].statusId);
      statusCaption := if item.Some? then item.value.caption else None;
    }

    /** UpdateReminders: the rows are built one per reminder, then the first
        one is marked. */
    method UpdateReminders()
      requires appointment in storage.store.items
      modifies this
      ensures CurrentView() == old(CurrentView()).(reminders :=
        DetailReminders(storage.store.items[appointment].reminders))
    {
      var rs := storage.store.items[appointment].reminders;
      var rows := seq(|rs|, i requires 0 <= i < |rs| => Reminder(rs[i], false));
      if |rows| > 0 {
        rows := rows[0 := rows[0].(isFirst := true)];
      }
      reminders := rows;
    }

    method UpdateRecurrenceType()
      requires appointment in storage.store.items
      modifies this
      ensures CurrentView() == old(CurrentView()).(recurrenceType :=
        var info := storage.store.items[appointment].recurrence;
        if info.Some? then Some(info.value.kind) else None)
    {
      var info := storage.store.items[appointment].recurrence;
      recurrenceType := if info.Some? then Some(info.value.kind) else None;
    }

    method UpdateTimeZoneName()
      requires appointment in storage.store.items
      modifies this
      ensures CurrentView() == old(CurrentView()).(timeZoneName :=
        TimeZoneNameOf(storage.engine, storage.store.items[appointment].timeZoneId))
    {
      var id := storage.store.items[appointment].timeZoneId;
      if id.None? || id.value !in storage.engine.zones {
        timeZoneName := None;
        return;
      }
      timeZoneName := Some(storage.engine.zones[id.value]);
    }

    /** RemoveAppointment, with the user's answers to whichever dialog it
        shows. */
    method RemoveAppointment(choice: string, confirmed: bool) returns (outcome: Outcome)
      requires appointment in storage.store.items
      modifies storage
      ensures Removal(storage.store, outcome) ==
        RemoveEffect(old(storage.store), appointment, if hasDialogService then Some(Dialog(choice, confirmed)) else None)
    {
      if !hasDialogService {
        return Threw(MissingDialogService);
      }
      if IsOccurrence(storage.store.items[appointment].kind) {
        outcome := RemoveRecurringAppointment(choice);
        return;
      }
      outcome := RemoveNormalAppointment(confirmed);
    }

    method RemoveRecurringAppointment(choice: string) returns (outcome: Outcome)
      requires appointment in storage.store.items
      modifies storage
      ensures Removal(storage.store, outcome) == RecurringRemoval(old(storage.store), appointment, choice)
    {
      if choice == RemoveOccurrenceAction {
        var m := storage.store.items[appointment];
        storage.Put(appointment, m.(kind := DeletedOccurrence));
        return Returned(true);
      } else if choice == RemoveFutureOccurrencesAction {
        if storage.store.items[appointment].recurrenceIndex > 0 {
          storage.StopPatternBeforeOccurrence(appointment);
        } else {
          RemovePattern();
        }
        return Returned(true);
      } else if choice == RemovePatternAction {
        RemovePattern();
        return Returned(true);
      }
      return Returned(false);
    }

    method RemoveNormalAppointment(confirmed: bool) returns (outcome: Outcome)
      modifies storage
      ensures Removal(storage.store, outcome) == NormalRemoval(old(storage.store), appointment, confirmed)
    {
      if confirmed {
        storage.RemoveAppointment(Some(appointment));
      }
      return Returned(confirmed);
    }

    method RemovePattern()
      modifies storage
      ensures storage.store == PatternRemoved(old(storage.store), appointment)
    {
      var pattern := GetPattern(storage.store, appointment);
      if pattern.Some? {
        storage.RemoveAppointment(pattern);
      }
    }
  }
}
