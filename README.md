# Appointment notifier: the notification run

A Dafny model of the notification run of the CESFAM Cholchol appointment
notifier (`process_notifications` in `autom_msj.py` and the helpers it calls).
Given the loaded appointment table, the run picks two sets of rows: those due
a reminder and those due a reschedule notice. It looks only at rows whose
appointment falls between today and the day after tomorrow. It renders one
WhatsApp text per candidate and sends it, or only simulates the send when the
WhatsApp automation is not available. On success it writes the notification
columns of the row. Every attempt, successful or not, appends one entry to
the JSON log. The run counts successes and errors.

The files:

- `wrappers.dfy`: the `Option` type.
- `dates.dfy`: calendar dates (years 1 to 9999, as Python's `date`).
  - Adding days, with an explicit overflow case.
  - The three-day window.
  - The `DD/MM/YYYY` and `HH:MM:SS` renderings, with their read-back lemmas.
- `appointments.dfy`:
  - the table row, with one field per spreadsheet column;
  - the two eligibility filters and the candidate lists they select;
  - the row updates that a successful send applies.
- `messages.dfy`: the reminder and reschedule templates and their placeholders.
- `delivery.dfy`: `send_whatsapp`.
  - Phone normalisation.
  - The demo branch, which always succeeds.
  - The transport's outcome is an input.
- `notification_log.dfy`: log entries and the log file.
  - The file can be missing, unreadable, readable but not a list, or a stored list.
  - `save_log` is the method `LogStore.SaveLog`.
- `notifier.dfy`: the run.
  - `Run` is the specification: outcome, final table and appended entries, as a function of the table before the run, the log file and an `Environment`.
  - `ProcessNotifications` is the imperative run over an `array<Row>` and a `LogStore`. It is proved equal to `Run`.
  - The send loops are `SendBatch`; one attempt is `NotifyRow`.
- `run_facts.dfy`: properties of whole runs.
  - Which rows change, and how.
  - What a run over the table a run leaves would send.
  - How the counts agree with the log.

The `Environment` carries what the program reads from the outside world:
- the current day;
- whether WhatsApp is available;
- for attempt k, the clock reading and what the automation does with the send (deliver, or raise with an error text).

Behaviours of the code that a reader might not expect, and that the model keeps:

- The two candidate sets are not disjoint. A row that is due a reminder and
  is also flagged for a change gets both notices in one run: the reminder
  first, then the reschedule notice.
- The reschedule filter also requires the ORIGINAL appointment date
  (`FECHA_ATENCION`) to lie in the window; the new date is not examined.
- A number that does not start with `+` gets `+56` in front even when it
  already starts with `56`. For example, `569...` is dialled as `+56569...`.
- The reschedule notice names the reassigned professional. The `No asignado`
  placeholder is unreachable from the run, because the filter requires a
  reassigned professional (`ChangeNoticeNamesReassigned`).
- Both candidate sets are taken from a copy of the table before any send.
  Messages and log entries use the row as it was selected; the updates go to
  the live table.
- When the log file holds JSON that is not a list, appending raises. The
  run then stops at its first attempt, after that attempt has already updated
  its row (outcome `LogAborted`).
- When `today + 2 days` is not a representable date, the run stops before it
  selects anything (outcome `WindowOverflow`).

## Model

| member | source | states |
|---|---|---|
| Dates.TwoDayWindow | autom_msj.py:225-226 | the window from today to `today + 2 days` holds exactly today, tomorrow and the day after |
| Dates.FormatDMYRoundTrip | autom_msj.py:118 | a date rendered as `DD/MM/YYYY` reads back as the same date |
| Dates.FormatDMYInjective | autom_msj.py:143 | different dates render differently |
| Dates.ClockTextRoundTrip | autom_msj.py:267 | the `HH:MM:SS` notification time reads back as the hour, minute and second of the clock reading |
| Appointments.CandidatesEligible | autom_msj.py:232-241 | every reminder (reschedule) candidate passes the reminder (reschedule) filter |
| Appointments.CandidatesComplete | autom_msj.py:232-241 | every row that passes a filter is among that filter's candidates |
| Appointments.CandidatesAscending | autom_msj.py:253 | the candidates come in table order, each row once |
| Appointments.ExcludedRows | autom_msj.py:232-241 | a null appointment date is in no window; a row already notified gets no reminder; a change without new date or reassigned professional gets no notice |
| Appointments.MarkEffect | autom_msj.py:264-308 | a successful send leaves the appointment columns and the other notice's flag alone, records the channel, the date and the `HH:MM:SS` time of the send, and takes the row out of the filter it passed |
| Messages.DateText | autom_msj.py:118 | a null date shows as `sin fecha`; a real date shows as ten characters `DD/MM/YYYY` |
| Messages.DateTextReadsBack | autom_msj.py:143 | a shown date reads back as the date |
| Messages.FillShowsDate | autom_msj.py:117-155 | two notices of one template for the same name read alike only if they show the same date |
| Messages.ReminderShowsDate | autom_msj.py:117-140 | two reminders to the same name are equal only if they give the same appointment date |
| Messages.ChangeShowsNewDate | autom_msj.py:142-155 | two reschedule notices to the same name are equal only if they give the same new date |
| Delivery.NormalizePhone | autom_msj.py:109-110 | the dialled number starts with `+` and ends with the stored number; it equals the stored number exactly when that starts with `+`; otherwise it is `+56` followed by the number, with no special case for a number that already starts with `56` |
| Delivery.SendWhatsApp | autom_msj.py:103-114 | without the automation the send succeeds with the simulated detail and dials nothing; with it, the normalised number is dialled and the send succeeds exactly when the automation delivers, and a failure carries `Error WhatsApp: ` and the error text |
| NotificationLog.NewEntry | autom_msj.py:275-285 | the status is `Enviado` exactly when the send succeeded and `Error` otherwise; the error field is present exactly on failure and holds the send's detail |
| NotificationLog.AppendedReadsBack | autom_msj.py:86-95 | after an append, reading the log gives its old entries (none when it was missing or unreadable) followed by the new ones in order; a file holding a non-list refuses them and still holds a non-list; the file is missing or unreadable afterwards only when nothing was appended |
| NotificationLog.AppendedSnoc | autom_msj.py:86-95 | on a file that accepts appends, appending entries one save at a time builds the same list as appending them together |
| NotificationLog.LogStore.SaveLog | autom_msj.py:86-100 | the file becomes its old list (empty when missing or unreadable) plus the entry; a file holding a non-list is left alone and the save fails; in both cases the new file is `Appended` of the old one and the entry |
| Notifier.Plan | autom_msj.py:243 | the plan has one attempt per reminder candidate and one per reschedule candidate, all on rows of the table |
| Notifier.PlanOrder | autom_msj.py:253-293 | all reminder candidates come first in table order, then all reschedule candidates in table order |
| Notifier.PlanAt | autom_msj.py:253-293 | attempt k is a reminder while k is below the number of reminder candidates, a reschedule notice after |
| Notifier.PlanCovers | autom_msj.py:232-241 | a row gets a notice of a kind exactly when it passes that kind's filter |
| Notifier.PlanNoRepeats | autom_msj.py:253-293 | no notice is planned twice |
| Notifier.PlanRemindersFirst | autom_msj.py:252-293 | no reminder comes after a reschedule notice |
| Notifier.Successes | autom_msj.py:269 | the success count never exceeds the number of attempts |
| Notifier.Run | autom_msj.py:218-336 | the final table has as many rows as the table before; a completed run reports successes + errors = processed = number of log entries > 0; an empty table, an overflowing window or nothing due change nothing and log nothing; a log file holding a non-list gets no entry; a run reports no data exactly when the table is empty |
| Notifier.RunNothingDue | autom_msj.py:243-247 | when neither filter selects a row the run changes nothing and logs nothing |
| Notifier.RunAborts | autom_msj.py:286 | when the log holds a non-list the run ends after its first attempt, with that attempt's row update and no log entry |
| Notifier.RunCompletes | autom_msj.py:252-335 | otherwise the run performs every planned attempt; it reports the plan's success and error counts and the table after all attempts, and appends one entry per attempt |
| Notifier.EntriesStep | autom_msj.py:286 | each attempt adds its own entry after those of the attempts before it |
| Notifier.NotifyRow | autom_msj.py:253-290 | one attempt moves the table, the log and the counters from the state after k attempts to the state after k + 1; only a non-list log file can stop it, and only at the first attempt |
| Notifier.SendBatch | autom_msj.py:253-290 | the loop over one candidate list performs its attempts in order and keeps the table, log and counters in step with them |
| Notifier.SendPlanned | autom_msj.py:252-330 | the reminders then the reschedule notices take the run from no attempt to all of them, or stop at the first |
| Notifier.ProcessNotifications | autom_msj.py:218-336 | the method's outcome, final table and log file are exactly those of `Run` on the table and log before the call |
| Notifier.NotifyDue | autom_msj.py:225-336 | the same, once the table has rows and the window fits the calendar |
| RunFacts.DeliveredWithinSome | autom_msj.py:262-265 | a notice counts as delivered exactly when some attempt for it succeeded |
| RunFacts.RowAfterSameAppointment | autom_msj.py:264-308 | no attempt changes a row's patient, phone, dates, reason or professionals |
| RunFacts.RowAfterFlags | autom_msj.py:265-308 | the notified flag becomes true once a reminder reaches the row, and the change flag becomes false once a reschedule notice does; otherwise both stay as they were |
| RunFacts.LastDelivery | autom_msj.py:262-308 | the last attempt among the first n that delivered a notice to the row: it targets the row and succeeded, and no later one of those attempts succeeded on the row |
| RunFacts.RowAfterTouched | autom_msj.py:264-307 | a row is reached by some attempt exactly when a reminder or a reschedule notice was delivered to it; it then records the channel (`WhatsApp` or `Demo`), and the date and `HH:MM:SS` time of the clock at the last attempt that reached it; a row that no notice reached is unchanged |
| RunFacts.RowAfterEligible | autom_msj.py:232-308 | after any number of attempts, in any window, a row passes a filter exactly when it passed it before and that kind of notice has not reached it |
| RunFacts.RunLeavesUndelivered | autom_msj.py:232-313 | in the table a completed run leaves, a row passes a filter exactly when it passed it before and that notice was not delivered: a run over that table does not select a delivered notice again, and selects a failed one again when its window holds the date |
| RunFacts.DemoSucceeds | autom_msj.py:104-106 | without the automation every attempt succeeds |
| RunFacts.NothingEligibleNothingPlanned | autom_msj.py:243-247 | a table where no row passes either filter plans no send |
| RunFacts.DemoRunLeavesNothingDue | autom_msj.py:104-106 | without the automation a run counts no error, and a run on the same day over the table it leaves finds nothing due |
| RunFacts.ChangeNoticeNamesReassigned | autom_msj.py:142-155 | every reschedule notice a run sends is for a row with a new date and a reassigned professional, and `ChangeProfessional` gives that professional, so the `No asignado` placeholder never reaches a patient |
| RunFacts.LogCountsSuccesses | autom_msj.py:269-286 | the entries of the first n attempts record as many sent entries as the success count |
| RunFacts.RunCountsMatchLog | autom_msj.py:269-335 | a completed run's processed count is the number of entries it logged; its success count is the number of `Enviado` entries; its error count is the rest |
| RunFacts.RunLogEntries | autom_msj.py:275-285 | log entry k records the message rendered for attempt k's kind and row, the patient, phone, kind label, channel and time, `Enviado` exactly when the send succeeded, and the error detail exactly when it failed |

## Left out

- The Streamlit interface is not modelled: page set-up, styles, header, sidebar, upload, progress bar, previews, metrics, table views, downloads and the automatic-mode scheduler. It carries no logic of the run.
- Excel loading and `pd.to_datetime(errors='coerce')` are not modelled. The model starts from the loaded table, with unparsable dates already null.
- JSON encoding and writing of the log file, write failures and the clear-logs button are not modelled. The file is a value: missing, unreadable, a non-list, or a stored list.
- `pywhatkit.sendwhatmsg_instantly` and the import-time availability check become inputs: the environment's `whatsapp` flag and a transport outcome per attempt.
- `datetime.now()` is read several times per attempt (notification date, time, log timestamp). The model reads the clock once per attempt.
- The log timestamp is kept as the clock reading, not as ISO text with microseconds.
- A run is modelled on the table it is given. In the application every press of the send button (and every automatic run) starts again from the uploaded file as first loaded (`load_data` is cached, autom_msj.py:63, 197-198, 342, 348), and the updated table goes only to the session state, which feeds the download (lines 336, 394-398). The row updates of one run therefore reach a later run only when the downloaded Excel is uploaded again. The lemmas about a run over the table a run leaves describe that case.
- `time.sleep` is left out: it only paces the sends.
- `threading` is imported but unused, and `run.py` only launches the app. Neither is modelled.
- Text cells are kept as the strings the run puts into messages. The model does not follow how `str()` renders empty cells (NaN) or numbers.
- Years below 1000 are left out: `strftime("%Y")` does not zero-pad them on every platform, while `FourDigits` always writes four digits.
- The run is stated for any rendering function (the `Renderer` type), and `ProcessNotifications` instantiates it with `MessageFor`, the two templates. The run-level lemmas therefore say nothing about the template text beyond what `Messages` proves.
