/** One notification run over the loaded appointment table: select the
    reminder and reschedule candidates from the table as it stands, send
    every reminder and then every reschedule notice in table order, update
    each row whose send succeeded, log every attempt and count the results.

    The current day, the WhatsApp availability, the clock reading at each
    attempt and what the WhatsApp automation does with each send are inputs
    of the run (an `Environment`); attempt k is the k-th send of the run. */
module Notifier {
  import opened Wrappers
  import opened Dates
  import opened Appointments
  import opened Messages
  import opened Delivery
  import opened NotificationLog

  /** The window runs from today to this many days ahead, both included. */
  const LookaheadDays: nat := 2

  datatype Environment = Environment(
    whatsapp: bool,                 // is the WhatsApp automation available
    today: Date,
    transport: nat -> Transport,    // the automation's answer to attempt k
    clock: nat -> Instant)          // the clock reading during attempt k

  /** How a notice of a kind reads for a row. The program renders with
      `MessageFor`; the run is described for any rendering. */
  type Renderer = (Kind, Row) -> string

  /** One planned send: which notice, to which row of the table. */
  datatype Attempt = Attempt(kind: Kind, row: nat)

  predicate PlanFits(plan: seq<Attempt>, n: nat) {
    forall k :: 0 <= k < |plan| ==> plan[k].row < n
  }

  /** All sends of a run, fixed before the first one: every reminder
      candidate in table order, then every reschedule candidate in table
      order. */
  function Plan(rows: seq<Row>, today: Date, last: Date): (p: seq<Attempt>)
    ensures PlanFits(p, |rows|)
    ensures |p| == |Candidates(rows, Reminder, today, last)| + |Candidates(rows, Change, today, last)|
  {
    var r := Candidates(rows, Reminder, today, last);
    var c := Candidates(rows, Change, today, last);
    seq(|r|, k requires 0 <= k < |r| => Attempt(Reminder, r[k]))
    + seq(|c|, k requires 0 <= k < |c| => Attempt(Change, c[k]))
  }

  /** The plan's attempts position by position: the reminder candidates
      first, then the reschedule candidates. */
  lemma PlanOrder(rows: seq<Row>, today: Date, last: Date)
    ensures var p := Plan(rows, today, last);
      var r := Candidates(rows, Reminder, today, last);
      var c := Candidates(rows, Change, today, last);
      (forall k :: 0 <= k < |r| ==> p[k] == Attempt(Reminder, r[k]))
      && (forall k :: 0 <= k < |c| ==> p[|r| + k] == Attempt(Change, c[k]))
  {
  }

  /** Attempt k of the plan: a reminder candidate while k is below the
      number of reminder candidates, a reschedule candidate after. */
  lemma PlanAt(rows: seq<Row>, today: Date, last: Date, k: nat)
    requires k < |Plan(rows, today, last)|
    ensures var r := Candidates(rows, Reminder, today, last);
      var c := Candidates(rows, Change, today, last);
      Plan(rows, today, last)[k]
      == if k < |r| then Attempt(Reminder, r[k]) else Attempt(Change, c[k - |r|])
  {
  }

  /** A row is sent a notice of a kind exactly when it is eligible for that
      kind. */
  lemma PlanCovers(rows: seq<Row>, today: Date, last: Date, kind: Kind, i: nat)
    requires i < |rows|
    ensures var p := Plan(rows, today, last);
      Eligible(kind, rows[i], today, last) <==> exists k :: 0 <= k < |p| && p[k] == Attempt(kind, i)
  {
    var p := Plan(rows, today, last);
    var r := Candidates(rows, Reminder, today, last);
    var c := Candidates(rows, Change, today, last);
    CandidatesEligible(rows, kind, today, last);
    var own := if kind == Reminder then r else c;
    var offset := if kind == Reminder then 0 else |r|;
    if Eligible(kind, rows[i], today, last) {
      CandidatesComplete(rows, kind, today, last, i);
      var j :| 0 <= j < |own| && own[j] == i;
      PlanAt(rows, today, last, offset + j);
      assert p[offset + j] == Attempt(kind, i);
    }
    if k :| 0 <= k < |p| && p[k] == Attempt(kind, i) {
      PlanAt(rows, today, last, k);
    }
  }

  /** No notice is planned twice. */
  lemma PlanNoRepeats(rows: seq<Row>, today: Date, last: Date, k: nat, l: nat)
    requires k < l < |Plan(rows, today, last)|
    ensures Plan(rows, today, last)[k] != Plan(rows, today, last)[l]
  {
    var r := Candidates(rows, Reminder, today, last);
    CandidatesAscending(rows, Reminder, today, last);
    CandidatesAscending(rows, Change, today, last);
    PlanAt(rows, today, last, k);
    PlanAt(rows, today, last, l);
    if l < |r| {
      assert r[k] < r[l];
    } else if |r| <= k {
      var c := Candidates(rows, Change, today, last);
      assert c[k - |r|] < c[l - |r|];
    }
  }

  /** Every reminder is planned before every reschedule notice. */
  lemma PlanRemindersFirst(rows: seq<Row>, today: Date, last: Date, k: nat, l: nat)
    requires k < l < |Plan(rows, today, last)|
    requires Plan(rows, today, last)[k].kind == Change
    ensures Plan(rows, today, last)[l].kind == Change
  {
    PlanAt(rows, today, last, k);
    PlanAt(rows, today, last, l);
  }

  /** What the automation (or the simulation) answers to attempt k. */
  function AttemptResult(rows0: seq<Row>, plan: seq<Attempt>, env: Environment, k: nat): SendResult
    requires PlanFits(plan, |rows0|) && k < |plan|
  {
    SendWhatsApp(env.whatsapp, rows0[plan[k].row].phone, env.transport(k))
  }

  /** The type recorded in the log for each kind of notice. */
  function KindLabel(kind: Kind): string {
    match kind
    case Reminder => "Recordatorio"
    case Change => "Cambio de Cita"
  }

  /** The log entry of attempt k. The message and the patient's details come
      from the table as it was when the run selected its candidates. */
  function AttemptEntry(rows0: seq<Row>, plan: seq<Attempt>, env: Environment, render: Renderer, k: nat): LogEntry
    requires PlanFits(plan, |rows0|) && k < |plan|
  {
    var a := plan[k];
    var row := rows0[a.row];
    var res := AttemptResult(rows0, plan, env, k);
    NewEntry(env.clock(k), row.name, row.phone, KindLabel(a.kind), ChannelName(env.whatsapp),
             render(a.kind, row), res.success, res.detail)
  }

  /** Row i after the first n attempts: a successful send to that row
      updates it as it stands at that moment; any other attempt leaves it
      as it was. */
  function RowAfter(rows0: seq<Row>, plan: seq<Attempt>, env: Environment, n: nat, i: nat): Row
    requires PlanFits(plan, |rows0|) && n <= |plan| && i < |rows0|
  {
    if n == 0 then rows0[i]
    else
      var prev := RowAfter(rows0, plan, env, n - 1, i);
      var a := plan[n - 1];
      if a.row == i && AttemptResult(rows0, plan, env, n - 1).success
      then Mark(a.kind, prev, env.clock(n - 1), ChannelName(env.whatsapp))
      else prev
  }

  /** The table after the first n attempts. */
  function TableAfter(rows0: seq<Row>, plan: seq<Attempt>, env: Environment, n: nat): (t: seq<Row>)
    requires PlanFits(plan, |rows0|) && n <= |plan|
    ensures |t| == |rows0|
    ensures forall i :: 0 <= i < |t| ==> t[i] == RowAfter(rows0, plan, env, n, i)
  {
    seq(|rows0|, i requires 0 <= i < |rows0| => RowAfter(rows0, plan, env, n, i))
  }

  /** The array `df` holds the table after the first n attempts. */
  ghost predicate HoldsTableAfter(df: array<Row>, rows0: seq<Row>, plan: seq<Attempt>, env: Environment, n: nat)
    requires PlanFits(plan, |rows0|) && n <= |plan|
    reads df
  {
    df.Length == |rows0| && forall i :: 0 <= i < df.Length ==> df[i] == RowAfter(rows0, plan, env, n, i)
  }

  /** The log entries of the first n attempts, in order. */
  function EntriesAfter(rows0: seq<Row>, plan: seq<Attempt>, env: Environment, render: Renderer, n: nat): (es: seq<LogEntry>)
    requires PlanFits(plan, |rows0|) && n <= |plan|
    ensures |es| == n
  {
    seq(n, k requires 0 <= k < n => AttemptEntry(rows0, plan, env, render, k))
  }

  /** How many of the first n attempts succeeded. */
  function Successes(rows0: seq<Row>, plan: seq<Attempt>, env: Environment, n: nat): (s: nat)
    requires PlanFits(plan, |rows0|) && n <= |plan|
    ensures s <= n
  {
    if n == 0 then 0
    else Successes(rows0, plan, env, n - 1) + (if AttemptResult(rows0, plan, env, n - 1).success then 1 else 0)
  }

  /** How a run ends: an empty table, the window's end overflowing the
      calendar, nothing due, the log file refusing the first append, or all
      attempts done with their counts. */
  datatype RunOutcome =
    | NoData
    | WindowOverflow
    | NothingDue
    | LogAborted
    | Completed(successes: nat, errors: nat, processed: nat)

  datatype RunResult = RunResult(outcome: RunOutcome, rows: seq<Row>, entries: seq<LogEntry>)

  /** The plan of a run whose window fits the calendar. */
  function RunPlan(rows0: seq<Row>, env: Environment): seq<Attempt>
    requires AddDays(env.today, LookaheadDays).Some?
  {
    Plan(rows0, env.today, AddDays(env.today, LookaheadDays).value)
  }

  /** What a run does to a table whose log file starts as `f0`: its outcome,
      the final table and the entries it appends to the log. */
  function Run(rows0: seq<Row>, f0: LogFile, env: Environment, render: Renderer): (r: RunResult)
    ensures |r.rows| == |rows0|
    ensures r.outcome.Completed? ==>
              r.outcome.successes + r.outcome.errors == r.outcome.processed == |r.entries| > 0
    ensures !r.outcome.Completed? ==> r.entries == []
    ensures f0.NotAList? ==> r.entries == []
    ensures r.outcome.NoData? || r.outcome.WindowOverflow? || r.outcome.NothingDue? ==> r.rows == rows0
    ensures r.outcome.NoData? <==> |rows0| == 0
  {
    if |rows0| == 0 then RunResult(NoData, rows0, [])
    else if AddDays(env.today, LookaheadDays).None? then RunResult(WindowOverflow, rows0, [])
    else
      var plan := RunPlan(rows0, env);
      if |plan| == 0 then RunResult(NothingDue, rows0, [])
      else if f0.NotAList? then RunResult(LogAborted, TableAfter(rows0, plan, env, 1), [])
      else
        var s := Successes(rows0, plan, env, |plan|);
        RunResult(Completed(s, |plan| - s, |plan|),
                  TableAfter(rows0, plan, env, |plan|), EntriesAfter(rows0, plan, env, render, |plan|))
  }

  /** A run whose window holds no candidate changes nothing. */
  lemma RunNothingDue(rows0: seq<Row>, f0: LogFile, env: Environment, render: Renderer)
    requires |rows0| > 0 && AddDays(env.today, LookaheadDays).Some?
    requires |RunPlan(rows0, env)| == 0
    ensures Run(rows0, f0, env, render) == RunResult(NothingDue, rows0, [])
  {
  }

  /** A run whose log file holds JSON that is not a list stops at the first
      append, after the first attempt has updated the table. */
  lemma RunAborts(rows0: seq<Row>, f0: LogFile, env: Environment, render: Renderer, final: seq<Row>)
    requires |rows0| > 0 && AddDays(env.today, LookaheadDays).Some?
    requires |RunPlan(rows0, env)| > 0 && f0.NotAList?
    requires |final| == |rows0|
    requires forall i :: 0 <= i < |final| ==> final[i] == RowAfter(rows0, RunPlan(rows0, env), env, 1, i)
    ensures Run(rows0, f0, env, render) == RunResult(LogAborted, final, [])
  {
    assert final == TableAfter(rows0, RunPlan(rows0, env), env, 1);
  }

  /** A run that reaches its sends and can append to its log performs all of
      them: the final table, the counts and the log entries are those of the
      whole plan. */
  lemma RunCompletes(rows0: seq<Row>, f0: LogFile, env: Environment, render: Renderer, final: seq<Row>,
                     successCount: nat, errorCount: nat)
    requires |rows0| > 0 && AddDays(env.today, LookaheadDays).Some?
    requires |RunPlan(rows0, env)| > 0 && !f0.NotAList?
    requires |final| == |rows0|
    requires var plan := RunPlan(rows0, env);
      && (forall i :: 0 <= i < |final| ==> final[i] == RowAfter(rows0, plan, env, |plan|, i))
      && successCount == Successes(rows0, plan, env, |plan|)
      && successCount + errorCount == |plan|
    ensures var plan := RunPlan(rows0, env);
      Run(rows0, f0, env, render)
      == RunResult(Completed(successCount, errorCount, |plan|), final, EntriesAfter(rows0, plan, env, render, |plan|))
  {
    var plan := RunPlan(rows0, env);
    assert final == TableAfter(rows0, plan, env, |plan|);
  }

  /** Attempt k adds its own entry after those of the attempts before it. */
  lemma EntriesStep(rows0: seq<Row>, plan: seq<Attempt>, env: Environment, render: Renderer, k: nat)
    requires PlanFits(plan, |rows0|) && k < |plan|
    ensures EntriesAfter(rows0, plan, env, render, k + 1)
            == EntriesAfter(rows0, plan, env, render, k) + [AttemptEntry(rows0, plan, env, render, k)]
  {
    var longer := EntriesAfter(rows0, plan, env, render, k + 1);
    var extended := EntriesAfter(rows0, plan, env, render, k) + [AttemptEntry(rows0, plan, env, render, k)];
    forall j | 0 <= j < |longer|
      ensures longer[j] == extended[j]
    {
      if j < k {
        assert extended[j] == EntriesAfter(rows0, plan, env, render, k)[j];
      }
    }
    assert longer == extended;
  }

  /** The state of a run after its first k attempts: the table, the log
      file and the counters agree with those attempts, and the log can only
      have refused the first append. */
  ghost predicate Reached(df: array<Row>, log: LogStore, rows0: seq<Row>, plan: seq<Attempt>, env: Environment,
                          render: Renderer, f0: LogFile, k: nat, successCount: nat, errorCount: nat)
    reads df, log
  {
    && PlanFits(plan, |rows0|) && k <= |plan|
    && HoldsTableAfter(df, rows0, plan, env, k)
    && log.file == Appended(f0, EntriesAfter(rows0, plan, env, render, k))
    && successCount == Successes(rows0, plan, env, k)
    && successCount + errorCount == k
    && (k > 0 ==> !f0.NotAList?)
  }

  /** Attempt k of the run: render the notice of `kind` for row `idx` as the
      run selected it, send it, on success update the live row `idx` of the
      table, log the attempt and count it. */
  method NotifyRow(df: array<Row>, log: LogStore, env: Environment, render: Renderer, rows0: seq<Row>,
                   ghost plan: seq<Attempt>, ghost f0: LogFile, k: nat, kind: Kind, idx: nat,
                   successes0: nat, errors0: nat)
    returns (successCount: nat, errorCount: nat, saved: bool)
    requires Reached(df, log, rows0, plan, env, render, f0, k, successes0, errors0)
    requires k < |plan| && plan[k] == Attempt(kind, idx)
    modifies df, log
    ensures saved ==> Reached(df, log, rows0, plan, env, render, f0, k + 1, successCount, errorCount)
    ensures !saved ==> k == 0 && f0.NotAList? && HoldsTableAfter(df, rows0, plan, env, 1) && log.file == f0
  {
    var row := rows0[idx];
    var channel := ChannelName(env.whatsapp);
    var message := render(kind, row);
    var result := SendWhatsApp(env.whatsapp, row.phone, env.transport(k));
    if result.success {
      var now := env.clock(k);
      df[idx] := if kind == Reminder then MarkReminded(df[idx], now, channel)
                 else MarkRescheduleSent(df[idx], now, channel);
      successCount, errorCount := successes0 + 1, errors0;
    } else {
      successCount, errorCount := successes0, errors0 + 1;
    }
    assert HoldsTableAfter(df, rows0, plan, env, k + 1);
    var entry := NewEntry(env.clock(k), row.name, row.phone, KindLabel(kind), channel, message,
                          result.success, result.detail);
    assert entry == AttemptEntry(rows0, plan, env, render, k);
    EntriesStep(rows0, plan, env, render, k);
    if !f0.NotAList? {
      AppendedSnoc(f0, EntriesAfter(rows0, plan, env, render, k), entry);
    }
    saved := log.SaveLog(entry);
  }

  /** Sends of one kind, in the order of `targets`, which the plan holds
      from position `start` on. It stops at the first log append that fails
      (reported as `aborted`); that can only be the run's first append. */
  method SendBatch(df: array<Row>, log: LogStore, env: Environment, render: Renderer, rows0: seq<Row>,
                   ghost plan: seq<Attempt>, ghost f0: LogFile, kind: Kind, targets: seq<nat>,
                   start: nat, successes0: nat, errors0: nat)
    returns (successCount: nat, errorCount: nat, aborted: bool)
    requires Reached(df, log, rows0, plan, env, render, f0, start, successes0, errors0)
    requires start + |targets| <= |plan|
    requires forall j :: 0 <= j < |targets| ==> plan[start + j] == Attempt(kind, targets[j])
    modifies df, log
    ensures aborted ==> start == 0 && |targets| > 0 && f0.NotAList? && PlanFits(plan, |rows0|)
                        && HoldsTableAfter(df, rows0, plan, env, 1) && log.file == f0
    ensures !aborted ==> Reached(df, log, rows0, plan, env, render, f0, start + |targets|, successCount, errorCount)
  {
    successCount, errorCount, aborted := successes0, errors0, false;
    var k := start;
    while k < start + |targets|
      invariant start <= k <= start + |targets|
      invariant Reached(df, log, rows0, plan, env, render, f0, k, successCount, errorCount)
    {
      var saved;
      successCount, errorCount, saved :=
        NotifyRow(df, log, env, render, rows0, plan, f0, k, kind, targets[k - start], successCount, errorCount);
      if !saved {
        aborted := true;
        return;
      }
      k := k + 1;
    }
  }

  /** All planned sends: every reminder, then every reschedule notice. */
  method SendPlanned(df: array<Row>, log: LogStore, env: Environment, render: Renderer, rows0: seq<Row>,
                     toNotify: seq<nat>, changed: seq<nat>, ghost plan: seq<Attempt>, ghost f0: LogFile)
    returns (successCount: nat, errorCount: nat, aborted: bool)
    requires |plan| == |toNotify| + |changed|
    requires forall j :: 0 <= j < |toNotify| ==> plan[j] == Attempt(Reminder, toNotify[j])
    requires forall j :: 0 <= j < |changed| ==> plan[|toNotify| + j] == Attempt(Change, changed[j])
    requires Reached(df, log, rows0, plan, env, render, f0, 0, 0, 0)
    modifies df, log
    ensures aborted ==> |plan| > 0 && f0.NotAList? && PlanFits(plan, |rows0|)
                        && HoldsTableAfter(df, rows0, plan, env, 1) && log.file == f0
    ensures !aborted ==> Reached(df, log, rows0, plan, env, render, f0, |plan|, successCount, errorCount)
  {
    successCount, errorCount, aborted :=
      SendBatch(df, log, env, render, rows0, plan, f0, Reminder, toNotify, 0, 0, 0);
    if !aborted {
      successCount, errorCount, aborted :=
        SendBatch(df, log, env, render, rows0, plan, f0, Change, changed, |toNotify|, successCount, errorCount);
    }
  }

  /** The run over the table `df`, appending to `log`. */
  method ProcessNotifications(df: array<Row>, log: LogStore, env: Environment) returns (outcome: RunOutcome)
    modifies df, log
    ensures var r := Run(old(df[..]), old(log.file), env, MessageFor);
      outcome == r.outcome && df[..] == r.rows && log.file == Appended(old(log.file), r.entries)
  {
    if df.Length == 0 {
      return NoData;
    }
    var window := AddDays(env.today, LookaheadDays);
    if window.None? {
      return WindowOverflow;
    }
    outcome := NotifyDue(df, log, env, window.value);
  }

  /** The run once the table has rows and the window fits the calendar:
      select the candidates from a copy of the table, then send. */
  method NotifyDue(df: array<Row>, log: LogStore, env: Environment, last: Date) returns (outcome: RunOutcome)
    requires df.Length > 0 && AddDays(env.today, LookaheadDays) == Some(last)
    modifies df, log
    ensures var r := Run(old(df[..]), old(log.file), env, MessageFor);
      outcome == r.outcome && df[..] == r.rows && log.file == Appended(old(log.file), r.entries)
  {
    // Both candidate sets are taken from a copy of the table before any send.
    var snapshot := df[..];
    var toNotify := Candidates(snapshot, Reminder, env.today, last);
    var changed := Candidates(snapshot, Change, env.today, last);
    ghost var plan := Plan(snapshot, env.today, last);
    assert plan == RunPlan(snapshot, env);
    if |toNotify| + |changed| == 0 {
      RunNothingDue(snapshot, log.file, env, MessageFor);
      return NothingDue;
    }
    ghost var f0 := log.file;
    PlanOrder(snapshot, env.today, last);
    assert Reached(df, log, snapshot, plan, env, MessageFor, f0, 0, 0, 0);
    var successCount, errorCount, aborted :=
      SendPlanned(df, log, env, MessageFor, snapshot, toNotify, changed, plan, f0);
    if aborted {
      RunAborts(snapshot, f0, env, MessageFor, df[..]);
      return LogAborted;
    }
    RunCompletes(snapshot, f0, env, MessageFor, df[..], successCount, errorCount);
    outcome := Completed(successCount, errorCount, |toNotify| + |changed|);
  }
}
