# Scheduler appointment pages, modelled in Dafny

This project models the view-models behind the appointment pages of the
DevExpress Xamarin.Forms scheduler example:

- the **appointment editor**. It loads a stored or new appointment into
  editable fields, keeps the interval consistent while dates and times change,
  and keeps the reminder rows and the recurrence option in order.
  `SaveChanges` writes the fields back into one of four places:
  - a new appointment;
  - the record itself;
  - the occurrence's series;
  - a new series split off at the occurrence, after asking the user which of
    these they mean.
- the **appointment detail page**. It shows a stored appointment's interval,
  label colour, status caption, reminders, recurrence type and time-zone name.
  `RemoveAppointment` deletes the record, the occurrence, the rest of the
  series or the whole series, as the user chooses.
- the **custom reminder page**. It holds a number of units and four unit
  builders. Exactly the selected builder is flagged, and each builder shows its
  singular or plural caption. Its command turns the number into a span.
- the **recurrence page**: a list of recurrence options, of which exactly the
  selected one is flagged, and a command that hands the selection back.

The modules follow the program's files:

| file | module | models |
|---|---|---|
| `times.dfy` | `Times` | DateTime and TimeSpan as integer ticks: date, time of day, adding days, the year |
| `scheduler.dfy` | `Scheduler` | the appointment records, the storage, and the effect of the storage calls the view-models make |
| `reminder_lists.dfy` | `ReminderLists` | the list operations behind writing reminders back |
| `recurrence_edit.dfy` | `RecurrenceEdit` | `CustomRecurrenceEditViewModel` |
| `reminder_edit.dfy` | `ReminderEdit` | `CustomReminderEditViewModel` and `TimeSpanBuilder` |
| `appointment_edit.dfy` | `AppointmentEdit` | `CustomAppointmentEditViewModel` |
| `appointment_detail.dfy` | `AppointmentDetail` | `AppointmentDetailFormatProvider` and `CustomAppointmentDetailViewModel` |

Each view-model is a `class` whose fields its methods update, as the C#
properties are. Some of that state is held more simply than in the source,
as "## Left out" says: the selected label, status and time zone are ids, the
reminder rows are values, the dialog service is a constant, and property
notifications are dropped.

In the appointment editor and the detail page, every state-changing method
is proved against a specification function:
- the editor's `State()` after each setter or handler;
- `Loaded` after loading a record;
- `Populated` after `PopulateAppointmentValues`;
- `SaveEffect` after `SaveChanges` (`SaveEffectCorrected` is the corrected save under Findings);
- `RemoveEffect` after `RemoveAppointment`;
- `Shown` for what the detail page displays.

Lemmas about these functions state what the source promises. The methods of
the recurrence page, the custom reminder page and `TimeSpanBuilder` state
their effect on the fields directly in their contracts.

The storage effects and outcomes are modelled as follows:
- The storage is a map from identities to records, plus the next identity.
- An exception is a value of `Error`.
- A call ends in `Returned(b)` or `Threw(e)`.
- The writes made before an exception stay made, as they do in the C# code.

## Model

| member | source | states |
|---|---|---|
| Scheduler.NewItem | CS/SchedulerExample/SchedulerPages/ViewModels/AppointmentEditViewModel.cs:370 | The record the storage hands out is a normal appointment with no pattern, no rule, no reminders and no zone |
| Scheduler.FirstWithId | CS/SchedulerExample/SchedulerPages/ViewModels/AppointmentEditViewModel.cs:291-292 | FirstOrDefault by id: null exactly when no listed item has the id, otherwise the first item that has it |
| Scheduler.Added | CS/SchedulerExample/SchedulerPages/ViewModels/AppointmentEditViewModel.cs:372 | Adding stores the record under a fresh identity and keeps every other record and the storage invariant |
| Scheduler.StoppedBefore | CS/SchedulerExample/SchedulerPages/ViewModels/AppointmentEditViewModel.cs:387 | Stopping a pattern before an occurrence changes only the pattern's ending, to end after the occurrences before it; a pattern without a rule leaves the storage unchanged |
| Scheduler.Removed | CS/SchedulerExample/SchedulerPages/ViewModels/AppointmentEditViewModel.cs:250 | Removing a record removes it and every occurrence referring to it, keeps every other record unchanged, and a null argument removes nothing |
| ReminderLists.SelectMembers | CS/SchedulerExample/SchedulerPages/ViewModels/AppointmentEditViewModel.cs:528-534 | Splitting the editor's reminders keeps exactly the elements on the requested side of the record's list |
| ReminderLists.RemoveFirst | CS/SchedulerExample/SchedulerPages/ViewModels/AppointmentEditViewModel.cs:540-542 | List.Remove drops one occurrence of the value when present (the multiset loses one copy), and leaves the list alone otherwise |
| ReminderLists.RemoveEachDropped | CS/SchedulerExample/SchedulerPages/ViewModels/AppointmentEditViewModel.cs:537-542 | Removing, one by one, the record's reminders not in the kept list leaves exactly the kept ones in their order |
| ReminderLists.Merged | CS/SchedulerExample/SchedulerPages/ViewModels/AppointmentEditViewModel.cs:525-545 | PopulateReminders as the source computes it; MergedResult and MergedWithoutDuplicates state what it yields |
| ReminderLists.MergedResult | CS/SchedulerExample/SchedulerPages/ViewModels/AppointmentEditViewModel.cs:525-545 | The reminders written back are the record's reminders still in the editor followed by the editor's new ones, or the untouched list when nothing differs |
| ReminderLists.MergedWithoutDuplicates | CS/SchedulerExample/SchedulerPages/ViewModels/AppointmentEditViewModel.cs:536 | With no duplicate rows in the editor, skipping the write-back loses nothing: the result is always the kept reminders followed by the new ones |
| RecurrenceEdit.RecurrenceEditor.constructor | CS/SchedulerExample/SchedulerPages/ViewModels/RecurrenceEditViewModel.cs:29-44 | Every option's flag is cleared, then the given option (or the first) is selected and alone flagged; settings are untouched |
| RecurrenceEdit.RecurrenceEditor.SetSelected | CS/SchedulerExample/SchedulerPages/ViewModels/RecurrenceEditViewModel.cs:16-23 | The new selection is flagged, the old one unflagged, and exactly the selection stays flagged; settings are untouched |
| RecurrenceEdit.RecurrenceEditor.Execute | CS/SchedulerExample/SchedulerPages/ViewModels/RecurrenceEditViewModel.cs:46-48 | The callback, when there is one, receives exactly the current selection; otherwise nothing happens |
| RecurrenceEdit.RecurrenceEditor.HasRecurrence | CS/SchedulerExample/SchedulerPages/ViewModels/RecurrenceEditViewModel.cs:24 | There is a recurrence unless the "never" option is selected; a null selection counts as one |
| RecurrenceEdit.AtMostOneSelected | CS/SchedulerExample/SchedulerPages/ViewModels/RecurrenceEditViewModel.cs:16-23 | No two different options are flagged at once |
| ReminderEdit.TimeSpanOf | CS/SchedulerExample/SchedulerPages/ViewModels/ReminderEditViewModel.cs:63-66 | new TimeSpan(d, h, m, s) is the span of that many seconds in ticks, and throws exactly when the total seconds fall outside TimeSpan's range |
| ReminderEdit.BuildSpan | CS/SchedulerExample/SchedulerPages/ViewModels/ReminderEditViewModel.cs:63-66 | Each handler builds v units of its length in ticks, and fails exactly when that many seconds are out of range |
| ReminderEdit.BuildRange | CS/SchedulerExample/SchedulerPages/ViewModels/ReminderEditViewModel.cs:63-66 | Every 32-bit non-negative count of seconds or minutes builds; hours and days build up to 10675199, and days fail above it |
| ReminderEdit.DisplayName | CS/SchedulerExample/SchedulerPages/ViewModels/ReminderEditViewModel.cs:79 | A selected builder shows its form followed by " before"; an unselected one shows the bare form |
| ReminderEdit.TimeSpanBuilder.ActualDisplayName | CS/SchedulerExample/SchedulerPages/ViewModels/ReminderEditViewModel.cs:79 | An unselected builder shows its bare form; a selected one its form (empty when null) followed by " before" |
| ReminderEdit.TimeSpanBuilder.constructor | CS/SchedulerExample/SchedulerPages/ViewModels/ReminderEditViewModel.cs:86-90 | A builder keeps its two captions and handler, starts unselected and without a form |
| ReminderEdit.TimeSpanBuilder.Build | CS/SchedulerExample/SchedulerPages/ViewModels/ReminderEditViewModel.cs:92-94 | Build returns units times the unit's length in ticks, and fails exactly out of range |
| ReminderEdit.TimeSpanBuilder.UpdateActualDisplayName | CS/SchedulerExample/SchedulerPages/ViewModels/ReminderEditViewModel.cs:96-98 | The form becomes the caption for the number; the flag is kept |
| ReminderEdit.TimeSpanBuilder.SetIsSelected | CS/SchedulerExample/SchedulerPages/ViewModels/ReminderEditViewModel.cs:81-84 | The flag is set and the form kept |
| ReminderEdit.DefaultBuilders | CS/SchedulerExample/SchedulerPages/ViewModels/ReminderEditViewModel.cs:63-67 | The default builders are second, minute, hour and day with their captions, unselected and without a form when created; editors falling back to them share them |
| ReminderEdit.ReminderEditor.constructor | CS/SchedulerExample/SchedulerPages/ViewModels/ReminderEditViewModel.cs:42-51 | The given builders or the defaults, all unflagged but the first, which is selected; the number is 10 and every builder shows its plural |
| ReminderEdit.ReminderEditor.SetUnitNumber | CS/SchedulerExample/SchedulerPages/ViewModels/ReminderEditViewModel.cs:21-29 | The number changes and every builder shows the caption for it; the selection and flags are kept |
| ReminderEdit.ReminderEditor.SetSelectedBuilder | CS/SchedulerExample/SchedulerPages/ViewModels/ReminderEditViewModel.cs:30-38 | The new builder is flagged, the old one unflagged, and exactly the selection stays flagged |
| ReminderEdit.ReminderEditor.Execute | CS/SchedulerExample/SchedulerPages/ViewModels/ReminderEditViewModel.cs:53-55 | The callback receives the selected builder's span for the number; no callback does nothing; a null builder or a span out of range throws |
| ReminderEdit.ReminderEditor.CanExecute | CS/SchedulerExample/SchedulerPages/ViewModels/ReminderEditViewModel.cs:57-59 | The command can run exactly when the number of units is not negative |
| ReminderEdit.CaptionsAfterConstruction | CS/SchedulerExample/SchedulerPages/ViewModels/ReminderEditViewModel.cs:49-50 | Right after construction each builder reads its plural, and the selected one its plural followed by " before" |
| AppointmentEdit.AllAllowedUnlessBound | CS/SchedulerExample/SchedulerPages/ViewModels/AppointmentEditViewModel.cs:547-561 | Outside bound mode time zones, reminders and recurrence are all offered; in bound mode each is offered exactly when the mappings support it |
| AppointmentEdit.IsBoundMode | CS/SchedulerExample/SchedulerPages/ViewModels/AppointmentEditViewModel.cs:547-549 | Bound mode: a data source with an appointments source and mappings |
| AppointmentEdit.TimeZoneId | CS/SchedulerExample/SchedulerPages/ViewModels/AppointmentEditViewModel.cs:509-511 | The id of a zone, with the operation zone standing in for a null one |
| AppointmentEdit.IsDefaultTimeZone | CS/SchedulerExample/SchedulerPages/ViewModels/AppointmentEditViewModel.cs:512-514 | No zone, or the operation zone, is the default |
| AppointmentEdit.ToClientTime | CS/SchedulerExample/SchedulerPages/ViewModels/AppointmentEditViewModel.cs:506-508 | Converting to the client zone is the engine's ToOperationTime for the zone's id |
| AppointmentEdit.StartDateSet | CS/SchedulerExample/SchedulerPages/ViewModels/AppointmentEditViewModel.cs:176-187 | The start moves to the date at its own time of day, the duration is kept, and the date-changed flag rises exactly on a change |
| AppointmentEdit.StartTimeSet | CS/SchedulerExample/SchedulerPages/ViewModels/AppointmentEditViewModel.cs:189-199 | The start moves to the time on its own date, the duration is kept, and the date-changed flag is left alone |
| AppointmentEdit.EndDateSet | CS/SchedulerExample/SchedulerPages/ViewModels/AppointmentEditViewModel.cs:201-212 | The end moves to the date at its own time of day; an end before the start pulls the start back by the old duration, so start <= end is kept |
| AppointmentEdit.EndTimeSet | CS/SchedulerExample/SchedulerPages/ViewModels/AppointmentEditViewModel.cs:214-224 | The end moves to the time on its own date, start <= end is kept, and the date-changed flag is left alone |
| AppointmentEdit.AllDaySet | CS/SchedulerExample/SchedulerPages/ViewModels/AppointmentEditViewModel.cs:110-122 | Changing the flag moves an end at midnight a day back (on) or forward (off); the time of day is always kept |
| AppointmentEdit.AllDayToggleRestores | CS/SchedulerExample/SchedulerPages/ViewModels/AppointmentEditViewModel.cs:110-122 | Toggling all-day twice restores the end |
| AppointmentEdit.PopulatedRule | CS/SchedulerExample/SchedulerPages/ViewModels/AppointmentEditViewModel.cs:487-501 | No rule exactly for the "never" option; otherwise the chosen type, settings and ending, starting at the edited start for a new rule or at the new start when given |
| AppointmentEdit.Populated | CS/SchedulerExample/SchedulerPages/ViewModels/AppointmentEditViewModel.cs:395-425 | PopulateAppointmentValues step by step; PopulatedFailure, PopulatedType, PopulatedPatternRule, PopulatedTimeZone, PopulatedReminders, PopulatedTimes and PopulatedPatternTimes state what it writes |
| AppointmentEdit.WrittenTimes | CS/SchedulerExample/SchedulerPages/ViewModels/AppointmentEditViewModel.cs:396-407 | The first writes set the all-day flag and the subject and change no field but the times |
| AppointmentEdit.WrittenZone | CS/SchedulerExample/SchedulerPages/ViewModels/AppointmentEditViewModel.cs:410-412 | Only the zone changes: kept with the default zone and no zone on the record, the selected zone otherwise, "" for the default |
| AppointmentEdit.WrittenRule | CS/SchedulerExample/SchedulerPages/ViewModels/AppointmentEditViewModel.cs:414-424 | The last writes keep times, subject, label, status, zone and series position, and merge the reminders |
| AppointmentEdit.WrittenType | CS/SchedulerExample/SchedulerPages/ViewModels/AppointmentEditViewModel.cs:414-421 | Writing the rule and the type changes only those two fields |
| AppointmentEdit.PopulatedFailure | CS/SchedulerExample/SchedulerPages/ViewModels/AppointmentEditViewModel.cs:395-409 | A null label or status throws exactly then, with the times, flag, subject (and label before a null status) written and the rest of the record as it was |
| AppointmentEdit.PopulatedType | CS/SchedulerExample/SchedulerPages/ViewModels/AppointmentEditViewModel.cs:414-421 | An occurrence keeps its type; "never" turns a pattern normal; a rule turns anything else into a pattern with a rule when recurrence is allowed |
| AppointmentEdit.PopulatedPatternRule | CS/SchedulerExample/SchedulerPages/ViewModels/AppointmentEditViewModel.cs:414-416 | A pattern's rule gets the chosen type, settings and ending, and starts at the edited start after a date change, at its own start otherwise |
| AppointmentEdit.PopulatedTimeZone | CS/SchedulerExample/SchedulerPages/ViewModels/AppointmentEditViewModel.cs:410-412 | The zone the record ends up with, in each of the three cases |
| AppointmentEdit.PopulatedReminders | CS/SchedulerExample/SchedulerPages/ViewModels/AppointmentEditViewModel.cs:525-545 | The record's reminders still in the editor followed by the new ones, or its list untouched |
| AppointmentEdit.PopulatedTimes | CS/SchedulerExample/SchedulerPages/ViewModels/AppointmentEditViewModel.cs:401-405 | A non-pattern takes the edited times, converted for a timed record; an all-day end at midnight is written a day later |
| AppointmentEdit.PopulatedPatternTimes | CS/SchedulerExample/SchedulerPages/ViewModels/AppointmentEditViewModel.cs:398-399 | A pattern keeps its dates and takes only the edited times of day; an all-day pattern keeps its times |
| AppointmentEdit.LoadedTimesShown | CS/SchedulerExample/SchedulerPages/ViewModels/AppointmentEditViewModel.cs:285-288 | An all-day record is shown with its own start and an end at midnight a day early; a timed one converted from its zone |
| AppointmentEdit.ListedId | CS/SchedulerExample/SchedulerPages/ViewModels/AppointmentEditViewModel.cs:291-292 | The label or status the editor selects: the record's id exactly when some listed item has it, null otherwise |
| AppointmentEdit.AllDayLoadSaveRoundTrip | CS/SchedulerExample/SchedulerPages/ViewModels/AppointmentEditViewModel.cs:284-288 | Loading an all-day non-pattern and saving it unedited writes back its own start and end |
| AppointmentEdit.PopulateStored | CS/SchedulerExample/SchedulerPages/ViewModels/AppointmentEditViewModel.cs:375-377 | Only the edited record changes, to its populated value, with its exception |
| AppointmentEdit.CreateNew | CS/SchedulerExample/SchedulerPages/ViewModels/AppointmentEditViewModel.cs:369-373 | The populated new record is added, unless populating throws, which leaves the storage as it was |
| AppointmentEdit.PopulatePattern | CS/SchedulerExample/SchedulerPages/ViewModels/AppointmentEditViewModel.cs:379-381 | The pattern is populated; a missing pattern throws and changes nothing |
| AppointmentEdit.NewPatternByOccurrence | CS/SchedulerExample/SchedulerPages/ViewModels/AppointmentEditViewModel.cs:383-393 | At the first occurrence the pattern is populated; later, the series is stopped before the occurrence and a new pattern created |
| AppointmentEdit.SaveEffect | CS/SchedulerExample/SchedulerPages/ViewModels/AppointmentEditViewModel.cs:240-276 | SaveChanges as written; the Save* lemmas below state its cases |
| AppointmentEdit.SaveEffectCorrected | CS/SchedulerExample/SchedulerPages/ViewModels/AppointmentEditViewModel.cs:249-253 | SaveChanges with the series kept at the first occurrence (Findings); equal to SaveEffect everywhere else |
| AppointmentEdit.SaveNewAddsOne | CS/SchedulerExample/SchedulerPages/ViewModels/AppointmentEditViewModel.cs:241-244 | Saving a new appointment adds exactly one record outside every series and returns true; a null label or status throws and adds nothing |
| AppointmentEdit.SaveNonOccurrence | CS/SchedulerExample/SchedulerPages/ViewModels/AppointmentEditViewModel.cs:245-248 | A record that is not an occurrence is saved without asking, changing that record only; true exactly when label and status are set |
| AppointmentEdit.SaveRecurrenceOnly | CS/SchedulerExample/SchedulerPages/ViewModels/AppointmentEditViewModel.cs:254-256 | A changed rule without a changed date populates the pattern without asking; only the pattern changes; a missing pattern throws |
| AppointmentEdit.SaveBothChangedLater | CS/SchedulerExample/SchedulerPages/ViewModels/AppointmentEditViewModel.cs:249-253 | From a later occurrence, the old series is removed and replaced by one new pattern; the records of other series stay |
| AppointmentEdit.SaveBothChangedFirstLosesSeries | CS/SchedulerExample/SchedulerPages/ViewModels/AppointmentEditViewModel.cs:249-253 | From the first occurrence, as written, the whole series is removed, nothing is added, and the call returns true |
| AppointmentEdit.SaveCorrectedKeepsSeries | CS/SchedulerExample/SchedulerPages/ViewModels/AppointmentEditViewModel.cs:249-253 | Corrected, the same save keeps the series with the pattern rewritten and every other record unchanged |
| AppointmentEdit.SaveCorrectedElsewhere | CS/SchedulerExample/SchedulerPages/ViewModels/AppointmentEditViewModel.cs:240-276 | In every other case the corrected save is the save as written |
| AppointmentEdit.SaveMissingDialog | CS/SchedulerExample/SchedulerPages/ViewModels/AppointmentEditViewModel.cs:258-260 | When the dialog is needed and there is no dialog service, the save throws before changing anything |
| AppointmentEdit.SaveThisOnly | CS/SchedulerExample/SchedulerPages/ViewModels/AppointmentEditViewModel.cs:263-265 | "Change this appointment only" rewrites the occurrence and nothing else |
| AppointmentEdit.SaveCancelled | CS/SchedulerExample/SchedulerPages/ViewModels/AppointmentEditViewModel.cs:272-275 | Cancel, or any other answer, returns false and changes nothing |
| AppointmentEdit.SaveFutureAtFirstIsSeries | CS/SchedulerExample/SchedulerPages/ViewModels/AppointmentEditViewModel.cs:266-268 | "Change this and all future appointments" from the first occurrence is "Change all appointments in the series" |
| AppointmentEdit.SaveFutureLater | CS/SchedulerExample/SchedulerPages/ViewModels/AppointmentEditViewModel.cs:266-268 | From a later occurrence the old series ends before it, nothing else of it changes, and one new pattern is added |
| AppointmentEdit.AppointmentEditor.NewOptions | CS/SchedulerExample/SchedulerPages/ViewModels/AppointmentEditViewModel.cs:71-86 | The options are "never", daily, weekly, monthly and yearly, the last four mapped from their own type |
| AppointmentEdit.AppointmentEditor.ForNew | CS/SchedulerExample/SchedulerPages/ViewModels/AppointmentEditViewModel.cs:297-306 | A new appointment's editor: the given interval and flag, a null subject, the storage's or local zone if listed, the first label and status, "never", no reminders |
| AppointmentEdit.AppointmentEditor.ForExisting | CS/SchedulerExample/SchedulerPages/ViewModels/AppointmentEditViewModel.cs:39-45 | A stored appointment's editor holds its shown times, subject, listed zone, label and status, reminders, rule and ending, with nothing marked changed |
| AppointmentEdit.AppointmentEditor.AssignAppointmentData | CS/SchedulerExample/SchedulerPages/ViewModels/AppointmentEditViewModel.cs:284-295 | The editor's state after loading is the loaded state of the record |
| AppointmentEdit.AppointmentEditor.AssignTimes | CS/SchedulerExample/SchedulerPages/ViewModels/AppointmentEditViewModel.cs:286-288 | The times are as the editor shows them and the flag is the record's; nothing else changes |
| AppointmentEdit.AppointmentEditor.AssignSubjectAndZone | CS/SchedulerExample/SchedulerPages/ViewModels/AppointmentEditViewModel.cs:289-290 | The subject and the listed zone of the record; nothing else changes |
| AppointmentEdit.AppointmentEditor.AssignLabelAndStatus | CS/SchedulerExample/SchedulerPages/ViewModels/AppointmentEditViewModel.cs:291-292 | The listed label and status with the record's ids; nothing else changes |
| AppointmentEdit.AppointmentEditor.AssignReminders | CS/SchedulerExample/SchedulerPages/ViewModels/AppointmentEditViewModel.cs:516-523 | One row per reminder in order, the first marked, HasReminders consistent |
| AppointmentEdit.AppointmentEditor.AssignRecurrence | CS/SchedulerExample/SchedulerPages/ViewModels/AppointmentEditViewModel.cs:468-475 | "Never" for no rule, otherwise the rule's option and ending; an unsupported type throws before any change |
| AppointmentEdit.AppointmentEditor.AssignRecurrenceType | CS/SchedulerExample/SchedulerPages/ViewModels/AppointmentEditViewModel.cs:477-485 | The option for the rule's type takes its settings, the others are untouched; an unsupported type throws |
| AppointmentEdit.AppointmentEditor.ActualAllowTimeZone | CS/SchedulerExample/SchedulerPages/ViewModels/AppointmentEditViewModel.cs:174 | Zones are offered exactly when they are allowed and the appointment is timed |
| AppointmentEdit.AppointmentEditor.Duration | CS/SchedulerExample/SchedulerPages/ViewModels/AppointmentEditViewModel.cs:238 | The duration is the end minus the start |
| AppointmentEdit.AppointmentEditor.SetStart | CS/SchedulerExample/SchedulerPages/ViewModels/AppointmentEditViewModel.cs:89-95 | Only the start changes |
| AppointmentEdit.AppointmentEditor.SetEnd | CS/SchedulerExample/SchedulerPages/ViewModels/AppointmentEditViewModel.cs:97-103 | Only the end changes |
| AppointmentEdit.AppointmentEditor.SetStartDate | CS/SchedulerExample/SchedulerPages/ViewModels/AppointmentEditViewModel.cs:176-187 | The interval becomes StartDateSet of the old one; nothing else changes |
| AppointmentEdit.AppointmentEditor.SetStartTime | CS/SchedulerExample/SchedulerPages/ViewModels/AppointmentEditViewModel.cs:189-199 | The interval becomes StartTimeSet of the old one; nothing else changes |
| AppointmentEdit.AppointmentEditor.SetEndDate | CS/SchedulerExample/SchedulerPages/ViewModels/AppointmentEditViewModel.cs:201-212 | The interval becomes EndDateSet of the old one; nothing else changes |
| AppointmentEdit.AppointmentEditor.SetEndTime | CS/SchedulerExample/SchedulerPages/ViewModels/AppointmentEditViewModel.cs:214-224 | The interval becomes EndTimeSet of the old one; nothing else changes |
| AppointmentEdit.AppointmentEditor.SetAllDay | CS/SchedulerExample/SchedulerPages/ViewModels/AppointmentEditViewModel.cs:110-122 | The flag and end become AllDaySet of the old ones; nothing else changes |
| AppointmentEdit.AppointmentEditor.AddReminder | CS/SchedulerExample/SchedulerPages/ViewModels/AppointmentEditViewModel.cs:334-343 | The row is appended, marked first exactly when the list was empty; HasReminders rises |
| AppointmentEdit.AppointmentEditor.RemoveReminder | CS/SchedulerExample/SchedulerPages/ViewModels/AppointmentEditViewModel.cs:344-356 | The row at the index leaves the list; the first remaining row is marked; HasReminders drops with the last row |
| AppointmentEdit.AppointmentEditor.ClearReminders | CS/SchedulerExample/SchedulerPages/ViewModels/AppointmentEditViewModel.cs:357-364 | Clearing leaves no rows and lowers HasReminders |
| AppointmentEdit.AppointmentEditor.OnReminderSelected | CS/SchedulerExample/SchedulerPages/ViewModels/AppointmentEditViewModel.cs:456-460 | A reminder is appended only when no listed reminder has its offset, so a list without duplicate offsets stays so |
| AppointmentEdit.AppointmentEditor.OfferedReminders | CS/SchedulerExample/SchedulerPages/ViewModels/AppointmentEditViewModel.cs:281 | The reminders offered are exactly the defaults whose offset is not in the list |
| AppointmentEdit.AppointmentEditor.OnRecurrenceTypeChanged | CS/SchedulerExample/SchedulerPages/ViewModels/AppointmentEditViewModel.cs:462-466 | A null option is ignored; a different option is taken and marks the recurrence changed |
| AppointmentEdit.AppointmentEditor.OnRecurrencePropertyChanged | CS/SchedulerExample/SchedulerPages/ViewModels/AppointmentEditViewModel.cs:328-330 | An edit of the subscribed option's settings marks the recurrence changed and nothing else |
| AppointmentEdit.AppointmentEditor.PopulateRecurrence | CS/SchedulerExample/SchedulerPages/ViewModels/AppointmentEditViewModel.cs:487-501 | The rule returned is PopulatedRule of the editor's state |
| AppointmentEdit.AppointmentEditor.PopulateReminders | CS/SchedulerExample/SchedulerPages/ViewModels/AppointmentEditViewModel.cs:525-545 | The loops compute Merged of the record's and the editor's reminders |
| AppointmentEdit.AppointmentEditor.WriteTimes | CS/SchedulerExample/SchedulerPages/ViewModels/AppointmentEditViewModel.cs:396-407 | The first writes compute WrittenTimes |
| AppointmentEdit.AppointmentEditor.WriteRuleAndReminders | CS/SchedulerExample/SchedulerPages/ViewModels/AppointmentEditViewModel.cs:414-424 | The last writes compute WrittenRule |
| AppointmentEdit.AppointmentEditor.PopulateAppointmentValues | CS/SchedulerExample/SchedulerPages/ViewModels/AppointmentEditViewModel.cs:395-425 | The record and exception are Populated of the editor's state |
| AppointmentEdit.AppointmentEditor.CreateNewAppointment | CS/SchedulerExample/SchedulerPages/ViewModels/AppointmentEditViewModel.cs:369-373 | The storage and exception are CreateNew of the old storage |
| AppointmentEdit.AppointmentEditor.PopulateActualAppointment | CS/SchedulerExample/SchedulerPages/ViewModels/AppointmentEditViewModel.cs:375-377 | The storage and exception are PopulateStored of the old storage |
| AppointmentEdit.AppointmentEditor.PopulateActualAppointmentPattern | CS/SchedulerExample/SchedulerPages/ViewModels/AppointmentEditViewModel.cs:379-381 | The storage and exception are PopulatePattern of the old storage |
| AppointmentEdit.AppointmentEditor.CreateNewPatternByOccurrence | CS/SchedulerExample/SchedulerPages/ViewModels/AppointmentEditViewModel.cs:383-393 | The storage and exception are NewPatternByOccurrence of the old storage |
| AppointmentEdit.AppointmentEditor.SaveChanges | CS/SchedulerExample/SchedulerPages/ViewModels/AppointmentEditViewModel.cs:240-276 | The storage and outcome are SaveEffect of the old storage, the save as the source writes it, with the dialog answer only when a dialog service exists |
| AppointmentDetail.FormattedRecurrenceTypeInjective | CS/SchedulerExample/SchedulerPages/ViewModels/AppointmentDetailViewModel.cs:94-96 | Two recurrence types that read alike are the same type |
| AppointmentDetail.FormattedStatusCaption | CS/SchedulerExample/SchedulerPages/ViewModels/AppointmentDetailViewModel.cs:98-100 | "Status: " followed by the caption, and empty exactly for a null or empty caption |
| AppointmentDetail.KindName | CS/SchedulerExample/SchedulerPages/ViewModels/AppointmentDetailViewModel.cs:95 | The lower-case name of each recurrence type |
| AppointmentDetail.HasLabel | CS/SchedulerExample/SchedulerPages/ViewModels/AppointmentDetailViewModel.cs:102 | A label colour is shown exactly when there is one |
| AppointmentDetail.HasRecurrence | CS/SchedulerExample/SchedulerPages/ViewModels/AppointmentDetailViewModel.cs:103 | The recurrence line is shown exactly when there is a type |
| AppointmentDetail.HasReminders | CS/SchedulerExample/SchedulerPages/ViewModels/AppointmentDetailViewModel.cs:104 | Reminders are shown exactly for a list that is there and not empty |
| AppointmentDetail.HasTimeZone | CS/SchedulerExample/SchedulerPages/ViewModels/AppointmentDetailViewModel.cs:105 | The zone line is shown exactly for a name that is neither null nor empty |
| AppointmentDetail.HasStatus | CS/SchedulerExample/SchedulerPages/ViewModels/AppointmentDetailViewModel.cs:106 | The status line is shown exactly for a caption that is neither null nor empty |
| AppointmentDetail.FlagsMatchTexts | CS/SchedulerExample/SchedulerPages/ViewModels/AppointmentDetailViewModel.cs:102-106 | HasRecurrence and HasStatus hold exactly when their texts are not empty |
| AppointmentDetail.SameDate | CS/SchedulerExample/SchedulerPages/ViewModels/AppointmentDetailViewModel.cs:236 | One date exactly when start and end share a date or the end is the next midnight |
| AppointmentDetail.ThisYear | CS/SchedulerExample/SchedulerPages/ViewModels/AppointmentDetailViewModel.cs:237 | Both ends fall in the current year |
| AppointmentDetail.DisplayedInterval | CS/SchedulerExample/SchedulerPages/ViewModels/AppointmentDetailViewModel.cs:220-231 | An all-day record shows its own start and an end at midnight a day early |
| AppointmentDetail.AllDaySingleDayShown | CS/SchedulerExample/SchedulerPages/ViewModels/AppointmentDetailViewModel.cs:220-236 | A one-day all-day appointment shows on one date, with its end on the start's date |
| AppointmentDetail.ShownAsInEditor | CS/SchedulerExample/SchedulerPages/ViewModels/AppointmentDetailViewModel.cs:217-231 | All-day records and timed records with a zone are shown at the times the editor loads them with |
| AppointmentDetail.ReplaceAll | CS/SchedulerExample/SchedulerPages/ViewModels/AppointmentDetailViewModel.cs:19 | Replacing by a brace-free text keeps a text brace-free; a shorter replacement never lengthens it |
| AppointmentDetail.DatePattern | CS/SchedulerExample/SchedulerPages/ViewModels/AppointmentDetailViewModel.cs:19 | The date pattern is brace-free when the culture's patterns are |
| AppointmentDetail.GetIntervalFormat | CS/SchedulerExample/SchedulerPages/ViewModels/AppointmentDetailViewModel.cs:16-26 | Every format opens with the start's weekday |
| AppointmentDetail.IntervalFormatPlaceholders | CS/SchedulerExample/SchedulerPages/ViewModels/AppointmentDetailViewModel.cs:16-26 | With brace-free culture patterns, one placeholder exactly for an all-day one-date appointment, and the start's then the end's otherwise |
| AppointmentDetail.LabelColorOf | CS/SchedulerExample/SchedulerPages/ViewModels/AppointmentDetailViewModel.cs:242-244 | The colour of the first listed label with the record's id, null exactly when none has it |
| AppointmentDetail.StatusCaptionOf | CS/SchedulerExample/SchedulerPages/ViewModels/AppointmentDetailViewModel.cs:246-248 | The caption of the first listed status with the record's id (whatever the first matching status's caption is), null when none has it |
| AppointmentDetail.HasLabelAsInEditor | CS/SchedulerExample/SchedulerPages/ViewModels/AppointmentDetailViewModel.cs:242-244 | A colour is shown exactly when the editor finds a label for the record, and it is a colour of a label with that id |
| AppointmentDetail.DetailReminders | CS/SchedulerExample/SchedulerPages/ViewModels/AppointmentDetailViewModel.cs:250-255 | One row per reminder |
| AppointmentDetail.DetailRowsAsInEditor | CS/SchedulerExample/SchedulerPages/ViewModels/AppointmentDetailViewModel.cs:250-255 | The rows carry the reminders in order, the first alone marked, as the editor's rows; HasReminders exactly for a non-empty list |
| AppointmentDetail.TimeZoneShown | CS/SchedulerExample/SchedulerPages/ViewModels/AppointmentDetailViewModel.cs:261-267 | The zone line is shown exactly when the record names a known zone with a non-empty display name |
| AppointmentDetail.PatternRemoved | CS/SchedulerExample/SchedulerPages/ViewModels/AppointmentDetailViewModel.cs:176-181 | The pattern and its series leave the storage; nothing changes without a pattern |
| AppointmentDetail.RecurringRemoval | CS/SchedulerExample/SchedulerPages/ViewModels/AppointmentDetailViewModel.cs:147-166 | RemoveRecurringAppointment for each chosen scope; the Remove* lemmas state its cases |
| AppointmentDetail.NormalRemoval | CS/SchedulerExample/SchedulerPages/ViewModels/AppointmentDetailViewModel.cs:168-174 | RemoveNormalAppointment: the record with its series goes exactly when confirmed, and the answer is returned |
| AppointmentDetail.RemoveEffect | CS/SchedulerExample/SchedulerPages/ViewModels/AppointmentDetailViewModel.cs:125-133 | RemoveAppointment: without a dialog service it throws, an occurrence takes the recurring path, any other record the normal one |
| AppointmentDetail.RemoveWithoutDialog | CS/SchedulerExample/SchedulerPages/ViewModels/AppointmentDetailViewModel.cs:126-128 | Without a dialog service removal throws and changes nothing |
| AppointmentDetail.RemoveThisOnly | CS/SchedulerExample/SchedulerPages/ViewModels/AppointmentDetailViewModel.cs:150-152 | "Delete this appointment only" marks the occurrence deleted and keeps every record |
| AppointmentDetail.RemoveFutureLater | CS/SchedulerExample/SchedulerPages/ViewModels/AppointmentDetailViewModel.cs:153-156 | From a later occurrence the series ends after the occurrences before it and nothing else changes |
| AppointmentDetail.RemoveFutureAtFirstIsSeries | CS/SchedulerExample/SchedulerPages/ViewModels/AppointmentDetailViewModel.cs:153-162 | From the first occurrence "Delete this and all future appointments" is "Delete all appointments in the series" |
| AppointmentDetail.RemoveSeries | CS/SchedulerExample/SchedulerPages/ViewModels/AppointmentDetailViewModel.cs:160-162 | The pattern and every record of its series leave, this occurrence among them, the rest stays |
| AppointmentDetail.RemoveCancelled | CS/SchedulerExample/SchedulerPages/ViewModels/AppointmentDetailViewModel.cs:163-164 | Any other answer deletes nothing and returns false |
| AppointmentDetail.RemoveNormal | CS/SchedulerExample/SchedulerPages/ViewModels/AppointmentDetailViewModel.cs:168-174 | A non-occurrence is removed, with its series, exactly when confirmed, and the answer is returned |
| AppointmentDetail.RemoveNeverAdds | CS/SchedulerExample/SchedulerPages/ViewModels/AppointmentDetailViewModel.cs:125-181 | Removal never adds a record nor alters one beyond the occurrence and its pattern |
| AppointmentDetail.AppointmentDetailViewModel.constructor | CS/SchedulerExample/SchedulerPages/ViewModels/AppointmentDetailViewModel.cs:108-121 | The page shows the record as Shown describes it |
| AppointmentDetail.AppointmentDetailViewModel.UpdateTimeText | CS/SchedulerExample/SchedulerPages/ViewModels/AppointmentDetailViewModel.cs:217-240 | Only the time text changes, to TimeTextOf the record |
| AppointmentDetail.AppointmentDetailViewModel.UpdateLabelColor | CS/SchedulerExample/SchedulerPages/ViewModels/AppointmentDetailViewModel.cs:242-244 | Only the label colour changes, to the found label's colour or null |
| AppointmentDetail.AppointmentDetailViewModel.UpdateStatusCaption | CS/SchedulerExample/SchedulerPages/ViewModels/AppointmentDetailViewModel.cs:246-248 | Only the caption changes, to the found status's caption or null |
| AppointmentDetail.AppointmentDetailViewModel.UpdateReminders | CS/SchedulerExample/SchedulerPages/ViewModels/AppointmentDetailViewModel.cs:250-255 | Only the rows change, to DetailReminders of the record |
| AppointmentDetail.AppointmentDetailViewModel.UpdateRecurrenceType | CS/SchedulerExample/SchedulerPages/ViewModels/AppointmentDetailViewModel.cs:257-259 | Only the recurrence type changes, to the rule's type or null |
| AppointmentDetail.AppointmentDetailViewModel.UpdateTimeZoneName | CS/SchedulerExample/SchedulerPages/ViewModels/AppointmentDetailViewModel.cs:261-267 | Only the zone name changes, to TimeZoneNameOf the record's zone |
| AppointmentDetail.AppointmentDetailViewModel.RemoveAppointment | CS/SchedulerExample/SchedulerPages/ViewModels/AppointmentDetailViewModel.cs:125-133 | The storage and outcome are RemoveEffect of the old storage, with the answers only when a dialog service exists |
| AppointmentDetail.AppointmentDetailViewModel.RemoveRecurringAppointment | CS/SchedulerExample/SchedulerPages/ViewModels/AppointmentDetailViewModel.cs:147-166 | The storage and outcome are RecurringRemoval for the chosen scope |
| AppointmentDetail.AppointmentDetailViewModel.RemoveNormalAppointment | CS/SchedulerExample/SchedulerPages/ViewModels/AppointmentDetailViewModel.cs:168-174 | The storage and outcome are NormalRemoval for the answer |
| AppointmentDetail.AppointmentDetailViewModel.RemovePattern | CS/SchedulerExample/SchedulerPages/ViewModels/AppointmentDetailViewModel.cs:176-181 | The storage becomes PatternRemoved of the old one |

## Left out

- Property-change notifications are left out. The model keeps `SetProperty`'s rule of assigning only when the value differs, and omits the `RaisePropertyChanged` fan-out. It also omits the detail page's subscriptions and re-updates on appointment changes (AppointmentDetailViewModel.cs:135-215, 269-279). These are events to a UI.
- The `IsSelected` flags of the listed labels, statuses and time zones are not modelled, and neither is `UpdateTimeZonesOnItemChange`. Only which item is selected is kept, as an id. These flags affect drawing only.
- `OnTimeZoneSelected`, `OnLabelSelected`, `OnStatusSelected` and the `Subject` setter are plain assignments. The model writes those fields directly and has no separate setter for them.
- Time-zone conversion (`ToOperationTime`, `FromOperationTime`) is an uninterpreted function of the engine. `FindSystemTimeZoneById` is not modelled: a zone id stands for the zone.
- The editor opens a record with no zone by converting from the operation zone, while the detail page shows such a record's times as stored. ShownAsInEditor therefore excludes timed records without a zone. The model does not relate an uninterpreted conversion to the identity.
- Dialogs and async calls are modelled as inputs: each `await` becomes the user's answer, passed as a parameter. The injected dialog service is a constructor constant, so setting `DialogService` later is not modelled.
- The recurrence rule is a value. The source populates the record's `RecurrenceInfo` object in place, and any other holder of that object would see the change; that aliasing is not modelled.
- The type-specific recurrence pages (`RecurrenceViewModelBase` and its subclasses), `RecurrenceEndingViewModel`, `ReminderViewModel`'s own logic and `ReminderAddViewModel` are not part of this model. An option's settings are one integer standing for their fields.
- A `new RecurrenceInfo()` is taken to be daily, with no end and blank settings; the library's defaults are not part of this model.
- The storage calls are modelled by the effect the view-models rely on. `StopPatternBeforeOccurrence` with a missing pattern or rule changes nothing. Otherwise it changes only the pattern's ending: the stored records of occurrences at and after the stopped index stay, still naming the old pattern, although they are now outside its series. So "nothing else changes" in RemoveFutureLater and SaveFutureLater includes those records. `RemoveAppointment` takes the pattern's occurrences with it. Label and status lookup return the first match. The library itself is not part of this model.
- ClearReminders: the Reset handler's loop over `e.OldItems` is not modelled. `ObservableCollection.Clear` passes no old items, so that loop would throw; the model only lowers HasReminders.
- ReminderEdit.ReminderEditor.SetUnitNumber: the number is an unbounded integer, not a 32-bit one. The setter never overflows.
- ReminderEdit.TimeSpanBuilder.Build: custom build handlers are not modelled. The four default handlers are the `Unit` values.
- RecurrenceEdit.RecurrenceEditor.constructor requires a given option or a non-empty list, because `First()` on an empty list throws.
- AppointmentEdit.AppointmentEditor.ForExisting requires a rule of a type the editor supports, because the source throws from its constructor otherwise. AssignRecurrence models that exception.
- The culture's date and time patterns and `DateTime.Now.Year` are parameters. Rendering the composite format with `string.Format` is not modelled: the time text is the format plus the two instants.
- Ticks are unbounded integers. The detail page requires non-negative ticks, as DateTime does, for the year computation.
- The `ArgumentNullException` checks of the detail constructor are left out: a record and a storage are always given.
- AppointmentEdit.AppointmentEditor.OnReminderSelected: `Reminders.Contains` compares `ReminderViewModel` objects, and their `Equals` is not part of this model. The model compares offsets, so "never adds a duplicate" holds under that value equality only. With reference equality the loaded rows (new objects) and the offered defaults (shared objects) would never be equal.
- AppointmentEdit.AppointmentEditor.OfferedReminders: the same value equality decides which defaults are already listed.
- ReminderEdit.DefaultBuilders: the source keeps the builders in a static field created once. The model creates them in DefaultBuilders and passes the same sequence to every editor as `defaults`; it does not prevent a caller from creating a second set.
- `CreateTimeZoneSelectViewModel`, `CreateLabelSelectViewModel`, `CreateStatusSelectViewModel`, `CreateRecurrenceEditViewModel` and `CreateAppointmentEditViewModel` are not modelled. They only construct the pages modelled here.

## Findings

| source | as written | input that shows it | evidently intended | confidence | as-written member | corrected member |
|---|---|---|---|---|---|---|
| CS/SchedulerExample/SchedulerPages/ViewModels/AppointmentEditViewModel.cs:249-252 | `CreateNewPatternByOccurrence` rewrites the old pattern in place when the occurrence's RecurrenceIndex is <= 0 (lines 383-386). `SaveChanges` then removes that same pattern with its whole series and returns true. | Edit the first occurrence (index 0) of a series: change its recurrence and its date, then save. The series is gone and nothing replaces it. | Removing the old pattern only when a new pattern replaced it. The series is then kept, rewritten with the edited values. | not executed | AppointmentEdit.SaveBothChangedFirstLosesSeries | AppointmentEdit.SaveCorrectedKeepsSeries |
