/**
 * What a stored action status says about the outside world: the run itself is the call history, every call with the
 * outcome it reported, and a row's status follows from what was reported, approved or requeued for it.
 */
module PlaybookReports {
  import opened Prelude
  import opened Playbooks
  import opened PlaybookRuns
  import opened PlaybookOrder
  import opened PlaybookStatus

  // ---- What a run records -------------------------------------------------------------------

  /** Step n calls the webhook of action i for the given attempt, and the call reports this outcome. */
  ghost predicate ReportedAt(s: Sys, steps: seq<Step>, n: nat, i: nat, attempt: nat, outcome: Outcome) {
    && n < |steps| && steps[n] == CallStep(steps[n].a, outcome)
    && var now := Run(s, steps[..n]);
    && steps[n].a in now.sessions && now.sessions[steps[n].a].Deliver?
    && now.sessions[steps[n].a].i == i && now.sessions[steps[n].a].attempt == attempt
  }

  ghost predicate Reported(s: Sys, steps: seq<Step>, i: nat, attempt: nat, outcome: Outcome) {
    exists n: nat :: ReportedAt(s, steps, n, i, attempt, outcome)
  }

  ghost predicate ReportedOk(s: Sys, steps: seq<Step>, i: nat, attempt: nat) {
    exists outcome: Outcome :: outcome.ok && Reported(s, steps, i, attempt, outcome)
  }

  ghost predicate ReportedFinal(s: Sys, steps: seq<Step>, i: nat, attempt: nat) {
    exists outcome: Outcome :: !outcome.ok && !outcome.retryable && Reported(s, steps, i, attempt, outcome)
  }

  ghost predicate ReportedRetryable(s: Sys, steps: seq<Step>, i: nat, attempt: nat) {
    exists outcome: Outcome :: !outcome.ok && outcome.retryable && Reported(s, steps, i, attempt, outcome)
  }

  predicate Approves(step: Step, i: nat) { step.AckStep? && step.i == i && step.ok }

  predicate Requeues(step: Step, i: nat) { step.RequeueStep? && step.i == i }

  predicate Approved(steps: seq<Step>, i: nat) { exists n :: 0 <= n < |steps| && Approves(steps[n], i) }

  predicate WasRequeued(steps: seq<Step>, i: nat) { exists n :: 0 <= n < |steps| && Requeues(steps[n], i) }

  lemma ReportedLater(s: Sys, steps: seq<Step>, step: Step, i: nat, attempt: nat, outcome: Outcome)
    requires Reported(s, steps, i, attempt, outcome)
    ensures Reported(s, steps + [step], i, attempt, outcome)
  {
    hide Run;
    var n: nat :| ReportedAt(s, steps, n, i, attempt, outcome);
    assert (steps + [step])[..n] == steps[..n];
    assert ReportedAt(s, steps + [step], n, i, attempt, outcome);
  }

  lemma ReportedNow(s: Sys, steps: seq<Step>, a: nat, outcome: Outcome)
    requires a in Run(s, steps).sessions && Run(s, steps).sessions[a].Deliver?
    ensures var p := Run(s, steps).sessions[a]; Reported(s, steps + [CallStep(a, outcome)], p.i, p.attempt, outcome)
  {
    hide Run;
    var all, n := steps + [CallStep(a, outcome)], |steps|;
    var p := Run(s, steps).sessions[a];
    assert all[..n] == steps;
    assert ReportedAt(s, all, n, p.i, p.attempt, outcome);
  }

  // ---- What a status needs ------------------------------------------------------------------

  /** What must have happened for a row to stand as it does. */
  ghost predicate Accounted(s: Sys, steps: seq<Step>, i: nat, row: Row) {
    match row.kind
    case Webhook =>
      && (row.status.Succeeded? ==> ReportedOk(s, steps, i, row.attempt))
      && (row.status.Failed? && row.attempt < row.maxAttempts ==> ReportedFinal(s, steps, i, row.attempt))
      && (row.status.RetryScheduled? ==> ReportedRetryable(s, steps, i, row.attempt) || WasRequeued(steps, i))
    case Control => row.status.Succeeded? ==> Approved(steps, i)
    case Other => !row.status.Succeeded?
  }

  ghost predicate OutcomeKnown(s: Sys, steps: seq<Step>, phase: Phase) {
    phase.Persist? ==> Reported(s, steps, phase.i, phase.attempt, phase.outcome)
  }

  ghost predicate AllAccounted(s: Sys, steps: seq<Step>) {
    var now := Run(s, steps);
    && (forall i :: i in now.rows ==> Accounted(s, steps, i, now.rows[i]))
    && (forall a :: a in now.sessions ==> OutcomeKnown(s, steps, now.sessions[a]))
  }

  lemma AccountedLater(s: Sys, steps: seq<Step>, step: Step, i: nat, row: Row)
    requires Accounted(s, steps, i, row)
    ensures Accounted(s, steps + [step], i, row)
  {
    hide Reported;
    assert forall n :: 0 <= n < |steps| ==> (steps + [step])[n] == steps[n];
    forall outcome | Reported(s, steps, i, row.attempt, outcome) ensures Reported(s, steps + [step], i, row.attempt, outcome) {
      ReportedLater(s, steps, step, i, row.attempt, outcome);
    }
  }

  /** The only steps that change a row's status, and to what. */
  predicate RowExplained(s: Sys, step: Step, i: nat, row: Row) {
    || (i in s.rows && row == s.rows[i])
    || (i !in s.rows && step.InsertStep? && !row.status.Succeeded? && !row.status.Failed? && !row.status.RetryScheduled?)
    || (i in s.rows && row.kind == s.rows[i].kind
        && match step
           case SettleStep(a, now) =>
             && a in s.sessions && s.sessions[a].Persist? && s.sessions[a].i == i
             && s.rows[i].kind.Webhook? && s.rows[i].attempt == s.sessions[a].attempt
             && row == Settled(s.rows[i], s.sessions[a].outcome, s.sessions[a].attempt, now)
           case ClaimStep(_, j, _) => j == i && row.status.Running?
           case FinalizeStep(_, _) => row.kind.Webhook? && row.status.Failed? && row.attempt >= row.maxAttempts
           case AckStep(_, j, ok, _) => j == i && row.kind.Control? && row.status == AckStatus(ok)
           case RequeueStep(_, j, _) => j == i && row.kind.Webhook? && row.status.RetryScheduled?
           case _ => false)
  }

  lemma InsertExplained(s: Sys, a: nat, now: int, i: nat)
    requires i in Insert(s, a, now).rows
    ensures RowExplained(s, InsertStep(a, now), i, Insert(s, a, now).rows[i])
  {}

  lemma SettleExplained(s: Sys, a: nat, now: int, i: nat)
    requires Inv(s) && i in Settle(s, a, now).rows
    ensures i in s.rows && RowExplained(s, SettleStep(a, now), i, Settle(s, a, now).rows[i])
  {
    if a in s.sessions && s.sessions[a].Persist? {
      assert SessionOk(s.plan, s.rows, s.calls, a, s.sessions[a]);
    }
  }

  lemma RowIsExplained(s: Sys, step: Step, i: nat)
    requires Inv(s) && i in Next(s, step).rows
    ensures RowExplained(s, step, i, Next(s, step).rows[i])
  {
    hide Inv, Insert, Settle, Summarize;
    match step
    case InsertStep(a, now) => InsertExplained(s, a, now, i);
    case SettleStep(a, now) => SettleExplained(s, a, now, i);
    case _ =>
  }

  /** A settled row says exactly what was reported. */
  lemma SettledSays(row: Row, outcome: Outcome, attempt: nat, now: int)
    ensures var status := Settled(row, outcome, attempt, now).status;
            && (status.Succeeded? <==> outcome.ok)
            && (status.RetryScheduled? <==> !outcome.ok && outcome.retryable && attempt < row.maxAttempts)
            && (status.Failed? <==> !outcome.ok && !(outcome.retryable && attempt < row.maxAttempts))
  {}

  lemma SettledAccounted(s: Sys, steps: seq<Step>, i: nat, row: Row, outcome: Outcome, now: int)
    requires Reported(s, steps, i, row.attempt, outcome) && row.kind.Webhook?
    ensures Accounted(s, steps, i, Settled(row, outcome, row.attempt, now))
  {
    hide Reported;
    SettledSays(row, outcome, row.attempt, now);
  }

  /** One row after one step. */
  lemma RowStaysAccounted(s: Sys, steps: seq<Step>, step: Step, i: nat)
    requires Inv(Run(s, steps)) && AllAccounted(s, steps) && i in Next(Run(s, steps), step).rows
    ensures Accounted(s, steps + [step], i, Next(Run(s, steps), step).rows[i])
  {
    hide Run, Inv, Next, Settled, Accounted;
    var now := Run(s, steps);
    var row := Next(now, step).rows[i];
    RowIsExplained(now, step, i);
    assert (steps + [step])[|steps|] == step;
    if i in now.rows && row == now.rows[i] {
      AccountedLater(s, steps, step, i, row);
    } else if step.SettleStep? {
      var p := now.sessions[step.a];
      assert OutcomeKnown(s, steps, p);
      ReportedLater(s, steps, step, i, p.attempt, p.outcome);
      SettledAccounted(s, steps + [step], i, now.rows[i], p.outcome, step.now);
    } else {
      OtherAccounted(s, steps + [step], i, now, step, row);
    }
  }

  lemma LeasedAttempt(s: Sys, a: nat)
    requires Inv(s) && a in s.sessions && s.sessions[a].Persist?
    ensures var p := s.sessions[a];
            p.i in s.rows && s.rows[p.i].kind.Webhook? && (LeasedTo(s.rows[p.i], a) ==> p.attempt == s.rows[p.i].attempt)
  {
    assert SessionOk(s.plan, s.rows, s.calls, a, s.sessions[a]);
  }

  lemma OtherAccounted(s: Sys, all: seq<Step>, i: nat, now: Sys, step: Step, row: Row)
    requires RowExplained(now, step, i, row) && !(i in now.rows && row == now.rows[i]) && !step.SettleStep?
    requires all != [] && all[|all| - 1] == step
    ensures Accounted(s, all, i, row)
  {
    assert step.AckStep? && step.ok && step.i == i ==> Approves(all[|all| - 1], i);
    assert step.RequeueStep? && step.i == i ==> Requeues(all[|all| - 1], i);
  }

  /** A pending outcome is what the session's own call just reported, or was pending before. */
  lemma OutcomeStaysKnown(s: Sys, steps: seq<Step>, step: Step, a: nat)
    requires AllAccounted(s, steps) && a in Next(Run(s, steps), step).sessions
    ensures OutcomeKnown(s, steps + [step], Next(Run(s, steps), step).sessions[a])
  {
    hide Run, Reported, Accounted;
    var now := Run(s, steps);
    var phase := Next(now, step).sessions[a];
    if phase.Persist? {
      PersistComesFromCall(now, step, a);
      hide Next;
      if a in now.sessions && now.sessions[a] == phase {
        assert OutcomeKnown(s, steps, phase);
        ReportedLater(s, steps, step, phase.i, phase.attempt, phase.outcome);
      } else {
        ReportedNow(s, steps, a, phase.outcome);
      }
    }
  }

  lemma PersistComesFromCall(s: Sys, step: Step, a: nat)
    requires a in Next(s, step).sessions && Next(s, step).sessions[a].Persist?
    ensures var p := Next(s, step).sessions[a];
            || (a in s.sessions && s.sessions[a] == p)
            || (step == CallStep(a, p.outcome) && a in s.sessions && s.sessions[a].Deliver?
                && s.sessions[a].i == p.i && s.sessions[a].attempt == p.attempt)
  {
    hide Summarize, Settled, FirstRow;
  }

  lemma StepAccounted(s: Sys, steps: seq<Step>, step: Step)
    requires Inv(Run(s, steps)) && AllAccounted(s, steps)
    ensures AllAccounted(s, steps + [step])
  {
    RunSnoc(s, steps, step);
    hide Inv, Run, Next, Accounted, OutcomeKnown;
    var next := Run(s, steps + [step]);
    forall i | i in next.rows ensures Accounted(s, steps + [step], i, next.rows[i]) {
      RowStaysAccounted(s, steps, step, i);
    }
    forall a | a in next.sessions ensures OutcomeKnown(s, steps + [step], next.sessions[a]) {
      OutcomeStaysKnown(s, steps, step, a);
    }
  }

  lemma NothingAccounted(plan: seq<Kind>)
    ensures AllAccounted(Start(plan), [])
  {
    RunNothing(Start(plan));
  }

  lemma {:induction false} RunAccounted(plan: seq<Kind>, steps: seq<Step>)
    ensures AllAccounted(Start(plan), steps)
    decreases |steps|
  {
    hide *;
    if steps == [] {
      NothingAccounted(plan);
    } else {
      var n := |steps| - 1;
      RunAccounted(plan, steps[..n]);
      ReachableInv(plan, steps[..n]);
      StepAccounted(Start(plan), steps[..n], steps[n]);
      assert steps == steps[..n] + [steps[n]];
    }
  }

  // ---- Theorems -----------------------------------------------------------------------------

  /**
   * However sessions overlap, a webhook action is succeeded only if a call of it, for its recorded attempt, reported
   * success, and a control-plane action only if somebody acknowledged it as done.
   */
  lemma SucceededWasReported(plan: seq<Kind>, steps: seq<Step>, i: nat)
    requires i in Run(Start(plan), steps).rows && Run(Start(plan), steps).rows[i].status.Succeeded?
    ensures var row := Run(Start(plan), steps).rows[i];
            && i < |plan| && row.kind == plan[i]
            && ((plan[i].Webhook? && ReportedOk(Start(plan), steps, i, row.attempt))
                || (plan[i].Control? && Approved(steps, i)))
  {
    hide ReportedOk;
    RunAccounted(plan, steps);
    ReachableInv(plan, steps);
    assert Accounted(Start(plan), steps, i, Run(Start(plan), steps).rows[i]);
  }

  /** A webhook fails before its last attempt only on a report that is neither a success nor retryable. */
  lemma FailedEarlyWasFinal(plan: seq<Kind>, steps: seq<Step>, i: nat)
    requires i in Run(Start(plan), steps).rows && Run(Start(plan), steps).rows[i].kind.Webhook?
    requires Run(Start(plan), steps).rows[i].status.Failed? && Run(Start(plan), steps).rows[i].attempt < 5
    ensures ReportedFinal(Start(plan), steps, i, Run(Start(plan), steps).rows[i].attempt)
  {
    hide ReportedFinal;
    RunAccounted(plan, steps);
    ReachableInv(plan, steps);
    assert Accounted(Start(plan), steps, i, Run(Start(plan), steps).rows[i]);
  }

  /** A retry is scheduled only after a retryable report of that attempt, or because an operator requeued the action. */
  lemma RetryWasReported(plan: seq<Kind>, steps: seq<Step>, i: nat)
    requires i in Run(Start(plan), steps).rows && Run(Start(plan), steps).rows[i].status.RetryScheduled?
    ensures ReportedRetryable(Start(plan), steps, i, Run(Start(plan), steps).rows[i].attempt) || WasRequeued(steps, i)
  {
    hide ReportedRetryable;
    RunAccounted(plan, steps);
    ReachableInv(plan, steps);
    assert Accounted(Start(plan), steps, i, Run(Start(plan), steps).rows[i]);
  }

  /** With sessions that do not overlap, a run marked `succeeded` has had every webhook delivered and every control action approved. */
  lemma SucceededRunWasReported(plan: seq<Kind>, steps: seq<Step>, i: nat)
    requires NeverOverlap(Start(plan), steps) && Run(Start(plan), steps).status.RunSucceeded? && i < |plan|
    ensures i in Run(Start(plan), steps).rows
    ensures || (plan[i].Webhook? && ReportedOk(Start(plan), steps, i, Run(Start(plan), steps).rows[i].attempt))
            || (plan[i].Control? && Approved(steps, i))
  {
    hide ReportedOk, NeverOverlap;
    SucceededMeansComplete(plan, steps);
    SucceededWasReported(plan, steps, i);
  }

  /**
   * What persisting a report does in any reachable state, if the session still holds the lease: the row succeeds, and
   * the session walks on, iff the report says so; a retryable failure is scheduled again while attempts remain.
   */
  lemma SettleFollowsReport(plan: seq<Kind>, steps: seq<Step>, a: nat, now: int)
    requires var s := Run(Start(plan), steps);
             a in s.sessions && s.sessions[a].Persist? && s.sessions[a].i in s.rows && LeasedTo(s.rows[s.sessions[a].i], a)
    ensures var s := Run(Start(plan), steps); var s' := Settle(s, a, now); var p := s.sessions[a];
            && p.i in s'.rows && a in s'.sessions
            && (s'.rows[p.i].status.Succeeded? <==> p.outcome.ok)
            && (s'.sessions[a].Walk? <==> p.outcome.ok) && (s'.sessions[a].Refresh? <==> !p.outcome.ok)
            && (s'.rows[p.i].status.RetryScheduled? <==> !p.outcome.ok && p.outcome.retryable && p.attempt < 5)
            && (s'.rows[p.i].status.Failed? <==> !p.outcome.ok && !(p.outcome.retryable && p.attempt < 5))
  {
    hide Inv;
    var s := Run(Start(plan), steps);
    var p := s.sessions[a];
    ReachableInv(plan, steps);
    LeasedAttempt(s, a);
    RowShape(s, p.i);
    SettledSays(s.rows[p.i], p.outcome, p.attempt, now);
  }

  /** A session that lost its lease writes nothing: a retry worker ends, any other goes on to refresh the status. */
  lemma LostLeaseWritesNothing(s: Sys, a: nat, now: int)
    requires a in s.sessions && s.sessions[a].Persist?
    requires s.sessions[a].i in s.rows ==> !LeasedTo(s.rows[s.sessions[a].i], a)
    ensures var s' := Settle(s, a, now);
            && s'.rows == s.rows && s'.calls == s.calls && s'.status == s.status
            && (if s.sessions[a].retry then a !in s'.sessions else a in s'.sessions && s'.sessions[a].Refresh?)
  {}

  lemma RowShape(s: Sys, i: nat)
    requires Inv(s) && i in s.rows
    ensures RowOk(s.rows[i])
  {}
}
