/** One appointment row of the loaded spreadsheet, the two eligibility
    filters of a notification run, and the state update that a successful
    send applies to a row. */
module Appointments {
  import opened Wrappers
  import opened Dates

  /** A row of the appointment table, one field per column. Date columns hold
      None where the loader's date coercion produced a null; `notified` and
      `rescheduled` hold None for an empty cell and otherwise the result of
      comparing the cell with `True`. Text cells hold the text the run
      interpolates into messages. */
  datatype Row = Row(
    rut: string,                   // RUT
    name: string,                  // NOMBRE_PACIENTE
    phone: string,                 // TELEFONO
    appointment: Option<Date>,     // FECHA_ATENCION
    reason: string,                // MOTIVO_CONSULTA
    professional: string,          // PROFESIONAL
    notified: Option<bool>,        // ¿NOTIFICADO?
    rescheduled: Option<bool>,     // ¿CAMBIO DE HORA?
    newDate: Option<Date>,         // NUEVA_FECHA
    reassigned: Option<string>,    // PROFESIONAL_REASIGNADO
    notifiedOn: Option<Date>,      // FECHA_NOTIFICACION
    notifiedAt: Option<string>,    // HORA_NOTIFICACION
    channel: Option<string>)       // METODO_NOTIFICACION

  /** The two kinds of notice a run sends. */
  datatype Kind = Reminder | Change

  /** A nullable date within `today .. last`; a null date is in no window. */
  predicate InWindow(d: Option<Date>, today: Date, last: Date) {
    d.Some? && NotAfter(today, d.value) && NotAfter(d.value, last)
  }

  /** The reminder filter: not yet notified (an empty or false flag both
      count) and the appointment falls in the window. */
  predicate ReminderEligible(r: Row, today: Date, last: Date) {
    r.notified != Some(true) && InWindow(r.appointment, today, last)
  }

  /** The reschedule filter: the change flag is exactly true, the new date and
      the reassigned professional are present, and the ORIGINAL appointment
      date falls in the window. */
  predicate RescheduleEligible(r: Row, today: Date, last: Date) {
    r.rescheduled == Some(true) && r.newDate.Some? && r.reassigned.Some?
    && InWindow(r.appointment, today, last)
  }

  predicate Eligible(kind: Kind, r: Row, today: Date, last: Date) {
    match kind
    case Reminder => ReminderEligible(r, today, last)
    case Change => RescheduleEligible(r, today, last)
  }

  /** The positions of the rows that pass the filter of `kind`, in table
      order: exactly the eligible rows, each once, ascending. */
  function Candidates(rows: seq<Row>, kind: Kind, today: Date, last: Date): (c: seq<nat>)
    ensures forall j :: 0 <= j < |c| ==> c[j] < |rows|
    decreases |rows|
  {
    if |rows| == 0 then []
    else
      var n := |rows| - 1;
      Candidates(rows[..n], kind, today, last) + (if Eligible(kind, rows[n], today, last) then [n] else [])
  }

  /** Every candidate of a kind is eligible for it. */
  lemma {:induction false} CandidatesEligible(rows: seq<Row>, kind: Kind, today: Date, last: Date)
    ensures forall j :: 0 <= j < |Candidates(rows, kind, today, last)|
              ==> Eligible(kind, rows[Candidates(rows, kind, today, last)[j]], today, last)
    decreases |rows|
  {
    if |rows| > 0 {
      var n := |rows| - 1;
      CandidatesEligible(rows[..n], kind, today, last);
      var front := Candidates(rows[..n], kind, today, last);
      var c := Candidates(rows, kind, today, last);
      assert c == front + (if Eligible(kind, rows[n], today, last) then [n] else []);
      forall j | 0 <= j < |c|
        ensures Eligible(kind, rows[c[j]], today, last)
      {
        if j < |front| {
          assert c[j] == front[j] && front[j] < n;
          assert rows[..n][front[j]] == rows[front[j]];
        } else {
          assert c[j] == n;
        }
      }
    }
  }

  /** The candidates come in table order, each once. */
  lemma {:induction false} CandidatesAscending(rows: seq<Row>, kind: Kind, today: Date, last: Date)
    ensures forall j, l :: 0 <= j < l < |Candidates(rows, kind, today, last)|
              ==> Candidates(rows, kind, today, last)[j] < Candidates(rows, kind, today, last)[l]
    decreases |rows|
  {
    if |rows| > 0 {
      var n := |rows| - 1;
      CandidatesAscending(rows[..n], kind, today, last);
      var front := Candidates(rows[..n], kind, today, last);
      var c := Candidates(rows, kind, today, last);
      assert c == front + (if Eligible(kind, rows[n], today, last) then [n] else []);
      forall j, l | 0 <= j < l < |c|
        ensures c[j] < c[l]
      {
        assert j < |front| && c[j] == front[j] && front[j] < n;
        if l < |front| {
          assert c[l] == front[l];
        } else {
          assert c[l] == n;
        }
      }
    }
  }

  /** Every eligible row is a candidate. */
  lemma {:induction false} CandidatesComplete(rows: seq<Row>, kind: Kind, today: Date, last: Date, i: nat)
    requires i < |rows| && Eligible(kind, rows[i], today, last)
    ensures i in Candidates(rows, kind, today, last)
    decreases |rows|
  {
    var n := |rows| - 1;
    var c := Candidates(rows, kind, today, last);
    var front := Candidates(rows[..n], kind, today, last);
    if i < n {
      assert rows[..n][i] == rows[i];
      CandidatesComplete(rows[..n], kind, today, last, i);
      var j :| 0 <= j < |front| && front[j] == i;
      assert c[j] == i;
    } else {
      assert c[|front|] == i;
    }
  }

  /** The rows the filters leave out, for any day: a row without an
      appointment date is in neither candidate set, a row whose notified flag
      is true is never a reminder candidate, and a reschedule without its new
      date or reassigned professional is held back. */
  lemma ExcludedRows(rows: seq<Row>, i: nat, today: Date, last: Date)
    requires i < |rows|
    ensures rows[i].appointment.None? ==> i !in Candidates(rows, Reminder, today, last)
    ensures rows[i].appointment.None? ==> i !in Candidates(rows, Change, today, last)
    ensures rows[i].notified == Some(true) ==> i !in Candidates(rows, Reminder, today, last)
    ensures rows[i].newDate.None? || rows[i].reassigned.None?
            ==> i !in Candidates(rows, Change, today, last)
  {
    CandidatesEligible(rows, Reminder, today, last);
    CandidatesEligible(rows, Change, today, last);
  }

  /** What a successful reminder send writes into the row: the notified flag,
      the notification date and time and the channel. */
  function MarkReminded(r: Row, at: Instant, channel: string): Row {
    r.(notified := Some(true), notifiedOn := Some(at.date),
       notifiedAt := Some(ClockText(at)), channel := Some(channel))
  }

  /** What a successful reschedule send writes into the row: the notification
      date, time and channel, and the change flag cleared. */
  function MarkRescheduleSent(r: Row, at: Instant, channel: string): Row {
    r.(notifiedOn := Some(at.date), notifiedAt := Some(ClockText(at)),
       channel := Some(channel), rescheduled := Some(false))
  }

  function Mark(kind: Kind, r: Row, at: Instant, channel: string): Row {
    match kind
    case Reminder => MarkReminded(r, at, channel)
    case Change => MarkRescheduleSent(r, at, channel)
  }

  /** Two rows describe the same appointment: they may differ only in the
      notification-state columns. */
  predicate SameAppointment(a: Row, b: Row) {
    a.rut == b.rut && a.name == b.name && a.phone == b.phone
    && a.appointment == b.appointment && a.reason == b.reason
    && a.professional == b.professional && a.newDate == b.newDate
    && a.reassigned == b.reassigned
  }

  /** A successful send leaves the appointment itself alone, leaves the other
      kind's flag alone, records the channel and the date and time of the
      send, and takes the row out of the filter it passed. */
  lemma MarkEffect(kind: Kind, r: Row, at: Instant, channel: string, today: Date, last: Date)
    ensures var m := Mark(kind, r, at, channel);
      SameAppointment(m, r)
      && m.channel == Some(channel) && m.notifiedOn == Some(at.date) && m.notifiedAt == Some(ClockText(at))
      && (kind == Reminder ==> m.rescheduled == r.rescheduled && !ReminderEligible(m, today, last))
      && (kind == Change ==> m.notified == r.notified && !RescheduleEligible(m, today, last))
  {
  }
}
