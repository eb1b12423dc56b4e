/** The scheduler's data model and the abstract effect of the data-storage
    operations the view-models call (create, add, find pattern, stop a pattern
    before an occurrence, remove). The storage itself belongs to the scheduler
    library; only the effect the view-models rely on is modelled. */
module Scheduler {
  import opened Times

  datatype Option<T> = None | Some(value: T)

  /** Identity of an appointment record in the storage. */
  type Id = nat

  /** The library's appointment kinds: a one-off appointment, the head of a
      series, an instance generated from it, an instance edited on its own,
      and an instance excluded from the series. */
  datatype AppointmentType = Normal | Pattern | Occurrence | ChangedOccurrence | DeletedOccurrence

  /** AppointmentItem.IsOccurrence: an instance that belongs to a series,
      whether generated, edited on its own or deleted from it. */
  predicate IsOccurrence(t: AppointmentType) {
    t == Occurrence || t == ChangedOccurrence || t == DeletedOccurrence
  }

  datatype RecurrenceType = Minutely | Hourly | Daily | Weekly | Monthly | Yearly

  /** How a series ends. */
  datatype Ending = NoEndDate | EndAfterOccurrences(count: int) | EndByDate(date: int)

  /** A recurrence rule. `settings` stands for the type-specific fields
      (interval, week days, day of month) that the recurrence editors write. */
  datatype RecurrenceInfo = RecurrenceInfo(kind: RecurrenceType, start: int, settings: int, ending: Ending)

  /** An appointment record. `pattern` and `recurrenceIndex` locate an
      occurrence in its series; `subject` and `timeZoneId` are None for null. */
  datatype Item = Item(
    kind: AppointmentType,
    pattern: Option<Id>,
    recurrenceIndex: int,
    start: int,
    end: int,
    allDay: bool,
    subject: Option<string>,
    labelId: int,
    statusId: int,
    timeZoneId: Option<string>,
    recurrence: Option<RecurrenceInfo>,
    reminders: seq<int>)

  /** The appointment collection and the next identity it hands out. */
  datatype Store = Store(items: map<Id, Item>, nextId: Id) {
    ghost predicate Valid() {
      forall k :: k in items ==> k < nextId
    }
  }

  /** string.IsNullOrEmpty. */
  predicate IsNullOrEmpty(s: Option<string>) {
    s.None? || s.value == ""
  }

  /** The record SchedulerDataStorage.CreateAppointmentItem hands out: a normal
      appointment with no recurrence, no reminders and a null time zone. */
  function NewItem(): (m: Item)
    ensures m.kind == Normal && m.pattern.None? && m.recurrence.None?
    ensures m.reminders == [] && m.timeZoneId.None?
  {
    Item(Normal, None, 0, 0, 0, false, None, 0, 0, None, None, [])
  }

  /** SchedulerDataStorage.GetPattern: the pattern an occurrence refers to, or
      null when the record names none or the pattern is not in the storage. */
  function GetPattern(s: Store, id: Id): (p: Option<Id>)
    ensures p.Some? ==> id in s.items && s.items[id].pattern == p && p.value in s.items
    ensures p.None? ==> id !in s.items || s.items[id].pattern.None? || s.items[id].pattern.value !in s.items
  {
    if id in s.items && s.items[id].pattern.Some? && s.items[id].pattern.value in s.items
    then s.items[id].pattern
    else None
  }

  /** AppointmentItems.Add: the record is stored under a new identity. */
  function Added(s: Store, m: Item): (r: Store)
    requires s.Valid()
    ensures r.Valid()
    ensures s.nextId !in s.items && r.items.Keys == s.items.Keys + {s.nextId}
    ensures r.items[s.nextId] == m
    ensures forall k :: k in s.items ==> r.items[k] == s.items[k]
  {
    Store(s.items[s.nextId := m], s.nextId + 1)
  }

  /** A stored record changed in place. */
  function Replaced(s: Store, id: Id, m: Item): (r: Store)
    requires id in s.items
    ensures r.items.Keys == s.items.Keys && r.nextId == s.nextId
    ensures r.items[id] == m
    ensures forall k :: k in s.items && k != id ==> r.items[k] == s.items[k]
    ensures s.Valid() ==> r.Valid()
  {
    Store(s.items[id := m], s.nextId)
  }

  /** SchedulerDataStorage.StopPatternBeforeOccurrence: the occurrence's series
      now ends after the occurrences that precede it. Only the pattern's
      ending changes; a missing pattern or rule leaves the storage as it is. */
  function StoppedBefore(s: Store, occurrence: Id): (r: Store)
    ensures r.items.Keys == s.items.Keys && r.nextId == s.nextId
    ensures forall k :: k in s.items && Some(k) != GetPattern(s, occurrence) ==> r.items[k] == s.items[k]
    ensures GetPattern(s, occurrence).Some? && s.items[GetPattern(s, occurrence).value].recurrence.Some? ==>
      var p := s.items[GetPattern(s, occurrence).value];
      r.items[GetPattern(s, occurrence).value]
        == p.(recurrence := Some(p.recurrence.value.(ending := EndAfterOccurrences(s.items[occurrence].recurrenceIndex))))
    ensures GetPattern(s, occurrence).Some? && s.items[GetPattern(s, occurrence).value].recurrence.None? ==> r == s
    ensures s.Valid() ==> r.Valid()
  {
    match GetPattern(s, occurrence)
    case None => s
    case Some(p) =>
      var pattern := s.items[p];
      if pattern.recurrence.None? then s
      else
        var stopped := pattern.recurrence.value.(ending := EndAfterOccurrences(s.items[occurrence].recurrenceIndex));
        Store(s.items[p := pattern.(recurrence := Some(stopped))], s.nextId)
  }

  /** SchedulerDataStorage.RemoveAppointment: the record leaves the storage,
      together with every occurrence of it when it is a pattern. A null
      argument removes nothing. */
  function Removed(s: Store, target: Option<Id>): (r: Store)
    ensures target.None? ==> r == s
    ensures target.Some? ==>
      forall k :: k in r.items <==> k in s.items && k != target.value && s.items[k].pattern != target
    ensures forall k :: k in r.items ==> k in s.items && r.items[k] == s.items[k]
    ensures r.nextId == s.nextId
    ensures s.Valid() ==> r.Valid()
  {
    match target
    case None => s
    case Some(t) =>
      Store(map k | k in s.items && k != t && s.items[k].pattern != target :: s.items[k], s.nextId)
  }

  /** A reminder row of the view-models: how long before the start it fires,
      and whether it is drawn as the first row of the list. */
  datatype Reminder = Reminder(timeBeforeStart: int, isFirst: bool)

  /** The exceptions the view-models raise or run into. */
  datatype Error =
    | MissingDialogService   // "The DialogService property value must be injected."
    | NullLabel              // Label.Id read while no label is selected
    | NullStatus             // Status.Id read while no status is selected
    | NullPattern            // a pattern looked up for an occurrence was not found
    | UnsupportedRecurrence  // a rule whose type the editor has no page for
    | NullSelection          // the selected builder is null when a command runs
    | SpanOutOfRange         // a TimeSpan longer than TimeSpan.MaxValue was asked for

  /** How an operation ended: with a value, or with an exception. */
  datatype Outcome = Returned(value: bool) | Threw(error: Error)

  /** The time-zone engine of the library: the operation (storage) time zone,
      the local zone, the known zones with their display names, and the two
      conversions, which are not interpreted here. */
  datatype TimeZoneEngine = TimeZoneEngine(
    operationZone: string,
    localZone: string,
    zones: map<string, string>,
    toOperationTime: (int, string) -> int,
    fromOperationTime: (int, string) -> int)

  datatype LabelItem = LabelItem(id: int, color: int)
  datatype StatusItem = StatusItem(id: int, caption: Option<string>)

  function LabelIdOf(l: LabelItem): int { l.id }
  function StatusIdOf(s: StatusItem): int { s.id }

  /** Item `i` is the first one with the id. */
  ghost predicate FirstAt<T>(items: seq<T>, idOf: T -> int, id: int, i: int) {
    0 <= i < |items| && idOf(items[i]) == id && forall j :: 0 <= j < i ==> idOf(items[j]) != id
  }

  /** FirstOrDefault(x => x.Id == id): the first item with the id, or null
      exactly when no item has it. */
  function FirstWithId<T>(items: seq<T>, idOf: T -> int, id: int): (r: Option<T>)
    ensures r.None? <==> forall i :: 0 <= i < |items| ==> idOf(items[i]) != id
    ensures r.Some? ==> exists i :: FirstAt(items, idOf, id, i) && items[i] == r.value
  {
    if items == [] then None
    else if idOf(items[0]) == id then (assert FirstAt(items, idOf, id, 0); Some(items[0]))
    else
      var r := FirstWithId(items[1..], idOf, id);
      assert r.Some? ==> exists i :: FirstAt(items, idOf, id, i) && items[i] == r.value by {
        if r.Some? {
          var k :| FirstAt(items[1..], idOf, id, k) && items[1..][k] == r.value;
          forall j | 0 <= j < k + 1 ensures idOf(items[j]) != id {
            if j > 0 { assert items[j] == items[1..][j - 1]; }
          }
          assert FirstAt(items, idOf, id, k + 1);
        }
      }
      assert r.None? ==> forall i :: 0 <= i < |items| ==> idOf(items[i]) != id by {
        if r.None? {
          forall i | 0 <= i < |items| ensures idOf(items[i]) != id {
            if i > 0 { assert items[i] == items[1..][i - 1]; }
          }
        }
      }
      r
  }

  /** The appointment mappings of a bound data source: whether the time-zone,
      reminder and recurrence members are mapped. */
  datatype Mappings = Mappings(timeZoneIdMapped: bool, reminderMapped: bool, supportsRecurrence: bool)
  datatype DataSource = DataSource(hasAppointmentsSource: bool, mappings: Option<Mappings>)

  /** SchedulerDataStorage as the view-models see it. */
  class SchedulerStorage {
    var store: Store
    const engine: TimeZoneEngine
    const labelItems: seq<LabelItem>
    const statusItems: seq<StatusItem>
    const dataSource: Option<DataSource>
    /** SchedulerDataStorage.TimeZone; None for null. */
    const timeZone: Option<string>

    constructor (store: Store, engine: TimeZoneEngine, labelItems: seq<LabelItem>, statusItems: seq<StatusItem>,
                 dataSource: Option<DataSource>, timeZone: Option<string>)
      ensures this.store == store && this.engine == engine && this.labelItems == labelItems
      ensures this.statusItems == statusItems && this.dataSource == dataSource && this.timeZone == timeZone
    {
      this.store := store;
      this.engine := engine;
      this.labelItems := labelItems;
      this.statusItems := statusItems;
      this.dataSource := dataSource;
      this.timeZone := timeZone;
    }

    method Add(m: Item) returns (id: Id)
      requires store.Valid()
      modifies this
      ensures id == old(store.nextId) && id !in old(store.items)
      ensures store == Added(old(store), m)
    {
      id := store.nextId;
      store := Store(store.items[id := m], store.nextId + 1);
    }

    method Put(id: Id, m: Item)
      requires id in store.items
      modifies this
      ensures store == Replaced(old(store), id, m)
    {
      store := store.(items := store.items[id := m]);
    }

    method StopPatternBeforeOccurrence(occurrence: Id)
      modifies this
      ensures store == StoppedBefore(old(store), occurrence)
    {
      store := StoppedBefore(store, occurrence);
    }

    method RemoveAppointment(target: Option<Id>)
      modifies this
      ensures store == Removed(old(store), target)
    {
      store := Removed(store, target);
    }
  }
}
