/** What a whole notification run guarantees: the appointments themselves
    are never edited, a delivered notice takes its row out of that notice's
    filter in the table the run leaves while a failed one leaves it in, a
    run without the automation leaves a table in which nothing is due on the
    same day, a reschedule notice always names the reassigned professional,
    and the reported counts agree with the log. */
module RunFacts {
  import opened Wrappers
  import opened Dates
  import opened Appointments
  import opened Delivery
  import opened NotificationLog
  import opened Messages
  import opened Notifier

  /** A notice of `kind` was delivered to row i by one of the first n
      attempts: the last of them was that notice and succeeded, or one
      before it did. */
  ghost predicate DeliveredWithin(rows0: seq<Row>, plan: seq<Attempt>, env: Environment, n: nat, kind: Kind, i: nat)
    requires PlanFits(plan, |rows0|) && n <= |plan|
  {
    n > 0
    && (DeliveredWithin(rows0, plan, env, n - 1, kind, i)
        || (plan[n - 1] == Attempt(kind, i) && AttemptResult(rows0, plan, env, n - 1).success))
  }

  /** An attempt that delivers a notice counts for every later prefix of the
      plan, and only such an attempt does. */
  lemma {:induction false} DeliveredWithinSome(rows0: seq<Row>, plan: seq<Attempt>, env: Environment, n: nat,
                                               kind: Kind, i: nat)
    requires PlanFits(plan, |rows0|) && n <= |plan|
    ensures DeliveredWithin(rows0, plan, env, n, kind, i)
            <==> exists k :: 0 <= k < n && plan[k] == Attempt(kind, i) && AttemptResult(rows0, plan, env, k).success
  {
    if n > 0 {
      DeliveredWithinSome(rows0, plan, env, n - 1, kind, i);
      if plan[n - 1] == Attempt(kind, i) && AttemptResult(rows0, plan, env, n - 1).success {
        assert 0 <= n - 1 < n;
      }
    }
  }

  /** However many attempts have run, a row still describes the appointment
      it described before the run. */
  lemma {:induction false} RowAfterSameAppointment(rows0: seq<Row>, plan: seq<Attempt>, env: Environment, n: nat, i: nat)
    requires PlanFits(plan, |rows0|) && n <= |plan| && i < |rows0|
    ensures SameAppointment(RowAfter(rows0, plan, env, n, i), rows0[i])
  {
    if n > 0 {
      RowAfterSameAppointment(rows0, plan, env, n - 1, i);
    }
  }

  /** What n attempts have written into the flags of row i: the notified
      flag is true once a reminder reached the row and is otherwise as it
      was; the change flag is false once a reschedule notice reached it and
      is otherwise as it was. */
  lemma {:induction false} RowAfterFlags(rows0: seq<Row>, plan: seq<Attempt>, env: Environment, n: nat, i: nat)
    requires PlanFits(plan, |rows0|) && n <= |plan| && i < |rows0|
    ensures RowAfter(rows0, plan, env, n, i).notified
            == if DeliveredWithin(rows0, plan, env, n, Reminder, i) then Some(true) else rows0[i].notified
    ensures RowAfter(rows0, plan, env, n, i).rescheduled
            == if DeliveredWithin(rows0, plan, env, n, Change, i) then Some(false) else rows0[i].rescheduled
  {
    if n > 0 {
      RowAfterFlags(rows0, plan, env, n - 1, i);
    }
  }

  /** Attempt j delivered a notice, of either kind, to row i. */
  ghost predicate DeliversTo(rows0: seq<Row>, plan: seq<Attempt>, env: Environment, j: nat, i: nat)
    requires PlanFits(plan, |rows0|) && j < |plan|
  {
    plan[j].row == i && AttemptResult(rows0, plan, env, j).success
  }

  /** The last of the first n attempts that delivered a notice, of either
      kind, to row i, if there is one. */
  ghost function LastDelivery(rows0: seq<Row>, plan: seq<Attempt>, env: Environment, n: nat, i: nat): (last: Option<nat>)
    requires PlanFits(plan, |rows0|) && n <= |plan|
    ensures last.Some? ==> last.value < n && DeliversTo(rows0, plan, env, last.value, i)
    ensures forall j :: 0 <= j < n && (last.None? || last.value < j) ==> !DeliversTo(rows0, plan, env, j, i)
  {
    if n == 0 then None
    else if DeliversTo(rows0, plan, env, n - 1, i) then Some(n - 1)
    else LastDelivery(rows0, plan, env, n - 1, i)
  }

  /** A row some notice reached records the channel, and the date and the
      `HH:MM:SS` time of the last attempt that reached it; a row no notice
      reached is exactly as it was. */
  lemma {:induction false} RowAfterTouched(rows0: seq<Row>, plan: seq<Attempt>, env: Environment, n: nat, i: nat)
    requires PlanFits(plan, |rows0|) && n <= |plan| && i < |rows0|
    ensures LastDelivery(rows0, plan, env, n, i).Some?
            <==> DeliveredWithin(rows0, plan, env, n, Reminder, i) || DeliveredWithin(rows0, plan, env, n, Change, i)
    ensures var r := RowAfter(rows0, plan, env, n, i);
      var last := LastDelivery(rows0, plan, env, n, i);
      if last.Some?
      then r.channel == Some(ChannelName(env.whatsapp))
           && r.notifiedOn == Some(env.clock(last.value).date)
           && r.notifiedAt == Some(ClockText(env.clock(last.value)))
      else r == rows0[i]
  {
    if n > 0 {
      RowAfterTouched(rows0, plan, env, n - 1, i);
      var a := plan[n - 1];
      if a.row == i && AttemptResult(rows0, plan, env, n - 1).success {
        if a.kind == Reminder {
          assert DeliveredWithin(rows0, plan, env, n, Reminder, i);
        } else {
          assert DeliveredWithin(rows0, plan, env, n, Change, i);
        }
      }
    }
  }

  /** After n attempts, in any window, a row passes the filter of a kind
      exactly when it passed it before the run and no notice of that kind
      has been delivered to it. */
  lemma {:induction false} RowAfterEligible(rows0: seq<Row>, plan: seq<Attempt>, env: Environment, n: nat, i: nat,
                                            kind: Kind, today: Date, last: Date)
    requires PlanFits(plan, |rows0|) && n <= |plan| && i < |rows0|
    ensures Eligible(kind, RowAfter(rows0, plan, env, n, i), today, last)
            <==> Eligible(kind, rows0[i], today, last) && !DeliveredWithin(rows0, plan, env, n, kind, i)
  {
    if n > 0 {
      RowAfterEligible(rows0, plan, env, n - 1, i, kind, today, last);
      var prev := RowAfter(rows0, plan, env, n - 1, i);
      var a := plan[n - 1];
      if a.row == i && AttemptResult(rows0, plan, env, n - 1).success {
        MarkEffect(a.kind, prev, env.clock(n - 1), ChannelName(env.whatsapp), today, last);
      }
    }
  }

  /** In the table a run that performs all its sends leaves, a row passes
      the filter of a kind, in any window, exactly when it passed it before
      and the notice of that kind did not reach it: a run over that table
      does not send a delivered notice again and tries a failed one again. */
  lemma RunLeavesUndelivered(rows0: seq<Row>, f0: LogFile, env: Environment, render: Renderer,
                             i: nat, kind: Kind, today: Date, last: Date)
    requires |rows0| > 0 && AddDays(env.today, LookaheadDays).Some?
    requires |RunPlan(rows0, env)| > 0 && !f0.NotAList?
    requires i < |rows0|
    ensures Eligible(kind, Run(rows0, f0, env, render).rows[i], today, last)
            <==> Eligible(kind, rows0[i], today, last)
                 && !DeliveredWithin(rows0, RunPlan(rows0, env), env, |RunPlan(rows0, env)|, kind, i)
  {
    var plan := RunPlan(rows0, env);
    assert Run(rows0, f0, env, render).rows == TableAfter(rows0, plan, env, |plan|);
    RowAfterEligible(rows0, plan, env, |plan|, i, kind, today, last);
  }

  /** Without the automation every attempt succeeds. */
  lemma {:induction false} DemoSucceeds(rows0: seq<Row>, plan: seq<Attempt>, env: Environment, n: nat)
    requires PlanFits(plan, |rows0|) && n <= |plan| && !env.whatsapp
    ensures Successes(rows0, plan, env, n) == n
  {
    if n > 0 {
      DemoSucceeds(rows0, plan, env, n - 1);
    }
  }

  /** A table whose rows pass neither filter plans no send. */
  lemma NothingEligibleNothingPlanned(rows: seq<Row>, today: Date, last: Date)
    requires forall i, kind :: 0 <= i < |rows| ==> !Eligible(kind, rows[i], today, last)
    ensures |Plan(rows, today, last)| == 0
  {
    var p := Plan(rows, today, last);
    if |p| > 0 {
      PlanCovers(rows, today, last, p[0].kind, p[0].row);
      assert false;
    }
  }

  /** Without the automation a run that performs its sends counts no error,
      and a run on the same day over the table the first one leaves finds
      nothing due. */
  lemma DemoRunLeavesNothingDue(rows0: seq<Row>, f0: LogFile, f1: LogFile, env: Environment, env2: Environment,
                                render: Renderer)
    requires !env.whatsapp && env2.today == env.today
    requires |rows0| > 0 && AddDays(env.today, LookaheadDays).Some?
    requires |RunPlan(rows0, env)| > 0 && !f0.NotAList?
    ensures Run(rows0, f0, env, render).outcome.Completed?
    ensures Run(rows0, f0, env, render).outcome.errors == 0
    ensures Run(Run(rows0, f0, env, render).rows, f1, env2, render).outcome == NothingDue
  {
    var plan := RunPlan(rows0, env);
    var last := AddDays(env.today, LookaheadDays).value;
    DemoSucceeds(rows0, plan, env, |plan|);
    var final := Run(rows0, f0, env, render).rows;
    forall i, kind | 0 <= i < |final|
      ensures !Eligible(kind, final[i], env.today, last)
    {
      RunLeavesUndelivered(rows0, f0, env, render, i, kind, env.today, last);
      if Eligible(kind, rows0[i], env.today, last) {
        PlanCovers(rows0, env.today, last, kind, i);
        var k :| 0 <= k < |plan| && plan[k] == Attempt(kind, i);
        assert AttemptResult(rows0, plan, env, k).success;
        DeliveredWithinSome(rows0, plan, env, |plan|, kind, i);
      }
    }
    NothingEligibleNothingPlanned(final, env.today, last);
    RunNothingDue(final, f1, env2, render);
  }

  /** The entries of the first n attempts record as many successful sends
      as the run counted. */
  lemma {:induction false} LogCountsSuccesses(rows0: seq<Row>, plan: seq<Attempt>, env: Environment,
                                              render: Renderer, n: nat)
    requires PlanFits(plan, |rows0|) && n <= |plan|
    ensures CountSent(EntriesAfter(rows0, plan, env, render, n)) == Successes(rows0, plan, env, n)
  {
    if n > 0 {
      LogCountsSuccesses(rows0, plan, env, render, n - 1);
      EntriesStep(rows0, plan, env, render, n - 1);
      var es := EntriesAfter(rows0, plan, env, render, n);
      assert es[..|es| - 1] == EntriesAfter(rows0, plan, env, render, n - 1);
    }
  }

  /** The counts a completed run reports are those its log shows: one entry
      per attempt, the successes marked sent and the rest marked as
      errors. */
  lemma RunCountsMatchLog(rows0: seq<Row>, f0: LogFile, env: Environment, render: Renderer)
    requires |rows0| > 0 && AddDays(env.today, LookaheadDays).Some?
    requires |RunPlan(rows0, env)| > 0 && !f0.NotAList?
    ensures var r := Run(rows0, f0, env, render);
      && r.outcome.Completed?
      && r.outcome.processed == |r.entries|
      && r.outcome.successes == CountSent(r.entries)
      && r.outcome.errors == |r.entries| - CountSent(r.entries)
  {
    var plan := RunPlan(rows0, env);
    LogCountsSuccesses(rows0, plan, env, render, |plan|);
  }

  /** Every reschedule notice a run sends is for a row with a new date and a
      reassigned professional, and it names that professional: the
      placeholder for a missing professional never reaches a patient. */
  lemma ChangeNoticeNamesReassigned(rows0: seq<Row>, env: Environment, k: nat)
    requires AddDays(env.today, LookaheadDays).Some?
    requires k < |RunPlan(rows0, env)| && RunPlan(rows0, env)[k].kind == Change
    ensures var row := rows0[RunPlan(rows0, env)[k].row];
      && row.reassigned == Some(ChangeProfessional(row))
      && row.newDate.Some? && DateText(row.newDate) == FormatDMY(row.newDate.value)
  {
    var last := AddDays(env.today, LookaheadDays).value;
    PlanAt(rows0, env.today, last, k);
    CandidatesEligible(rows0, Change, env.today, last);
  }

  /** Entry k of a completed run's log records attempt k of the plan: the
      notice of that kind rendered for the row as the run selected it, the
      patient's name and phone, the kind, and whether the send succeeded. */
  lemma RunLogEntries(rows0: seq<Row>, f0: LogFile, env: Environment, render: Renderer, k: nat)
    requires |rows0| > 0 && AddDays(env.today, LookaheadDays).Some?
    requires |RunPlan(rows0, env)| > 0 && !f0.NotAList?
    requires k < |RunPlan(rows0, env)|
    ensures var plan := RunPlan(rows0, env);
      var e := Run(rows0, f0, env, render).entries[k];
      var row := rows0[plan[k].row];
      && e.message == render(plan[k].kind, row)
      && e.patient == row.name && e.phone == row.phone
      && e.kind == KindLabel(plan[k].kind)
      && e.channel == ChannelName(env.whatsapp)
      && e.timestamp == env.clock(k)
      && (e.status == SentStatus <==> AttemptResult(rows0, plan, env, k).success)
      && (e.error.Some? <==> !AttemptResult(rows0, plan, env, k).success)
      && (!AttemptResult(rows0, plan, env, k).success ==> e.error == Some(AttemptResult(rows0, plan, env, k).detail))
  {
  }
}
