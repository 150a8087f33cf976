/** The statements of playbooks.py over the rows of one run, and the executor that issues them in a loop. */
module PlaybookTables {
  import opened Prelude
  import opened Playbooks
  import opened PlaybookRuns
  import opened PlaybookOrder
  import opened PlaybookStatus

  /** Collapses the durable action states, given as the list a SELECT returned, into the run state. */
  method SummarizeActionStatuses(statuses: seq<Status>) returns (r: RunStatus)
    ensures r == Summarize(set x | x in statuses)
  {
    if statuses == [] { return RunSucceeded; }
    var values: set<Status> := {};
    for i := 0 to |statuses|
      invariant values == set x | x in statuses[..i]
    {
      assert statuses[..i + 1] == statuses[..i] + [statuses[i]];
      values := values + {statuses[i]};
    }
    assert statuses[..|statuses|] == statuses;
    assert statuses[0] in values;
    if Running in values { return RunRunning; }
    if RetryScheduled in values { return RunRetrying; }
    if AwaitingAck in values { return RunAwaitingAck; }
    if values == {Succeeded} { return RunSucceeded; }
    if values == {Unsupported} { return RunUnsupported; }
    if values == {Failed} { return RunFailed; }
    return RunPartial;
  }

  lemma StatusesSnoc(rows: map<nat, Row>, seen: set<nat>, i: nat, statuses: seq<Status>)
    requires seen <= rows.Keys && i in rows
    requires (set x | x in statuses) == set k | k in seen :: rows[k].status
    ensures (set x | x in statuses + [rows[i].status]) == set k | k in seen + {i} :: rows[k].status
  {
    var all := set k | k in seen + {i} :: rows[k].status;
    assert all == (set k | k in seen :: rows[k].status) + {rows[i].status};
  }

  /** Where one session's statement leads when it has the tables to itself. */
  lemma LoneInsert(s: Sys, a: nat, i: nat, now: int)
    requires i < |s.plan|
    ensures Next(Goto(s, a, Walk(i)), InsertStep(a, now)) ==
            if i in s.rows then Goto(s, a, Look(i))
            else Goto(s.(rows := s.rows[i := FirstRow(s.plan[i], a, now)]), a,
                      if s.plan[i].Webhook? then Deliver(i, 1, false) else Refresh)
  {}

  lemma LoneRead(s: Sys, a: nat, i: nat)
    requires i in s.rows
    ensures Next(Goto(s, a, Look(i)), ReadStep(a)) ==
            Goto(s, a, if s.rows[i].status.Succeeded? then Walk(i + 1) else Refresh)
  {}

  lemma LoneCall(s: Sys, a: nat, i: nat, outcome: Outcome)
    ensures Next(Goto(s, a, Deliver(i, 1, false)), CallStep(a, outcome)) ==
            Goto(s.(calls := s.calls + [Token(i, 1)]), a, Persist(i, 1, false, outcome))
  {}

  lemma LoneSettle(s: Sys, a: nat, i: nat, outcome: Outcome, now: int)
    requires i in s.rows && LeasedTo(s.rows[i], a)
    ensures var row := Settled(s.rows[i], outcome, 1, now);
            Next(Goto(s, a, Persist(i, 1, false, outcome)), SettleStep(a, now)) ==
            Goto(s.(rows := s.rows[i := row]), a, if row.status.Succeeded? then Walk(i + 1) else Refresh)
  {}

  lemma SettledStatus(row: Row, outcome: Outcome, attempt: nat, now: int)
    ensures Settled(row, outcome, attempt, now).status == DurableStatus(outcome, attempt, row.maxAttempts)
  {}

  lemma LoneOpen(s: Sys, a: nat)
    requires a !in s.sessions
    ensures Next(s, OpenStep(a)) == Goto(s, a, Walk(0))
  {}

  lemma LonePast(s: Sys, a: nat, now: int)
    ensures Next(Goto(s, a, Walk(|s.plan|)), InsertStep(a, now)) == Goto(s, a, Refresh)
  {}

  lemma LoneRefresh(s: Sys, a: nat)
    requires s.sessions == map[]
    ensures var r := Next(Goto(s, a, Refresh), RefreshReadStep(a));
            Next(r, RefreshWriteStep(a)) == s.(status := Summarize(Statuses(s.rows)))
  {}

  /** A session past the last action has finished the plan; one that stopped leaves an unfinished row. */
  lemma WalkedOut(s: Sys, a: nat)
    requires Inv(s) && a in s.sessions
    requires s.sessions[a] == Walk(|s.plan|) || (s.sessions[a].Refresh? && !AllSucceeded(s.rows))
    ensures AllSucceeded(s.rows) <==> Complete(s)
    ensures AllSucceeded(s.rows) ==> |s.rows| == |s.plan|
  {
    assert SessionOk(s.plan, s.rows, s.calls, a, s.sessions[a]);
    assert |s.rows| !in s.rows;
  }

  class RunTables {
    const plan: seq<Kind>
    var rows: map<nat, Row>
    var status: RunStatus
    var calls: seq<Token>

    constructor (plan: seq<Kind>)
      ensures this.plan == plan && State() == Start(plan)
    {
      this.plan := plan;
      rows, status, calls := map[], RunRunning, [];
    }

    /** The durable part of the machine state. */
    function State(): Sys
      reads this
    {
      Sys(plan, rows, status, map[], calls)
    }

    /** The state while one session runs by itself. */
    function At(a: nat, phase: Phase): Sys
      reads this
    {
      Goto(State(), a, phase)
    }

    /**
     * Inserts the first row of an action that has none. The rows stay a prefix of the plan; a webhook is the
     * inserter's alone, and becomes due for others exactly when the lease runs out; nothing else ever is.
     */
    method InsertResult(i: nat, owner: nat, now: int) returns (inserted: bool)
      requires i < |plan|
      modifies this`rows
      ensures inserted == (i !in old(rows))
      ensures rows == if inserted then old(rows)[i := FirstRow(plan[i], owner, now)] else old(rows)
      ensures PlanPrefix(plan, old(rows)) && Done(old(rows), i) ==> PlanPrefix(plan, rows)
      ensures inserted ==> forall o :: LeasedTo(rows[i], o) <==> plan[i].Webhook? && o == owner
      ensures inserted ==> forall later :: Due(rows[i], later) <==> plan[i].Webhook? && later >= now + 30
      ensures inserted && plan[i].Control? ==> CanAck(rows[i])
      ensures inserted && plan[i].Other? ==> rows[i].status.Unsupported?
    {
      inserted := i !in rows;
      if inserted && PlanPrefix(plan, rows) && Done(rows, i) {
        NextIsLast(plan, rows, i);
        assert CallsOk(rows, []);
        GrowKeepsPrefix(plan, rows, [], i, FirstRow(plan[i], owner, now));
      }
      if inserted {
        var status, maxAttempts, leaseOwner := Unsupported, 1, None;
        if plan[i] == Webhook {
          status, maxAttempts, leaseOwner := Running, WEBHOOK_MAX_ATTEMPTS, Some(owner);
        } else if plan[i] == Control {
          status := AwaitingAck;
        }
        var lease := if leaseOwner.Some? then Some(now + WEBHOOK_LEASE_SECONDS) else None;
        rows := rows[i := Row(plan[i], status, 1, maxAttempts, leaseOwner, lease, None)];
      }
    }

    method CallWebhook(i: nat, attempt: nat)
      modifies this`calls
      ensures calls == old(calls) + [Token(i, attempt)]
    {
      calls := calls + [Token(i, attempt)];
    }

    /**
     * The durable status is returned either way; the row changes only under the lease, and then nobody can persist
     * that attempt again. A scheduled retry is due exactly from the end of the backoff on, any other outcome never.
     */
    method PersistWebhookOutcome(i: nat, owner: nat, attempt: nat, maxAttempts: nat, outcome: Outcome, now: int)
      returns (persisted: bool, durable: Status)
      requires i in rows ==> rows[i].maxAttempts == maxAttempts
      modifies this`rows
      ensures persisted <==> i in old(rows) && LeasedTo(old(rows)[i], owner)
      ensures durable == DurableStatus(outcome, attempt, maxAttempts)
      ensures durable.Succeeded? <==> outcome.ok
      ensures durable.RetryScheduled? <==> !outcome.ok && outcome.retryable && attempt < maxAttempts
      ensures durable.Failed? <==> !outcome.ok && !(outcome.retryable && attempt < maxAttempts)
      ensures rows == if persisted then old(rows)[i := Settled(old(rows)[i], outcome, attempt, now)] else old(rows)
      ensures PlanPrefix(plan, old(rows)) ==> PlanPrefix(plan, rows)
      ensures persisted ==> rows[i].status == durable && forall o :: !LeasedTo(rows[i], o)
      ensures persisted && rows[i].kind.Webhook? && rows[i].attempt == attempt ==>
                forall later :: Due(rows[i], later) <==>
                  durable.RetryScheduled? && later >= now + Backoff(attempt, outcome.retryAfter)
    {
      var retryAfter := 0;
      if outcome.ok {
        durable := Succeeded;
      } else if !outcome.retryable || attempt >= maxAttempts {
        durable := Status.Failed;
      } else {
        durable := RetryScheduled;
        retryAfter := Backoff(attempt, outcome.retryAfter);
      }
      persisted := i in rows && rows[i].owner == Some(owner) && rows[i].status == Running;
      if persisted {
        rows := rows[i := rows[i].(status := durable, owner := None, leaseExpiresAt := None,
                                   nextAttemptAt := if durable == RetryScheduled then Some(now + retryAfter) else None)];
      }
    }

    /** Takes one due row if there is any; a run has at most one, so there is no order to choose by. */
    method ClaimDueWebhookRetry(owner: nat, now: int) returns (claimed: Option<nat>)
      modifies this`rows
      ensures claimed.None? <==> forall i :: i in old(rows) ==> !Due(old(rows)[i], now)
      ensures claimed.None? ==> rows == old(rows)
      ensures claimed.Some? ==>
                && claimed.value in old(rows) && Due(old(rows)[claimed.value], now)
                && rows == old(rows)[claimed.value := Reclaimed(old(rows)[claimed.value], owner, now)]
      ensures PlanPrefix(plan, old(rows)) ==> forall i :: i in old(rows) && Due(old(rows)[i], now) ==> claimed == Some(i)
      ensures claimed.Some? ==>
                && rows[claimed.value].attempt == old(rows)[claimed.value].attempt + 1
                && (forall o :: LeasedTo(rows[claimed.value], o) <==> o == owner)
                && (forall later :: later < now + 30 ==> !Due(rows[claimed.value], later))
    {
      var due := set i | i in rows && Due(rows[i], now);
      if due == {} {
        assert forall i :: i in rows && Due(rows[i], now) ==> i in due;
        return None;
      }
      var i :| i in due;
      rows := rows[i := rows[i].(status := Running, attempt := rows[i].attempt + 1, nextAttemptAt := None,
                                 owner := Some(owner), leaseExpiresAt := Some(now + WEBHOOK_LEASE_SECONDS))];
      return Some(i);
    }

    /** Fails every running webhook whose last lease ran out, and reports which ones. */
    method FinalizeExpiredRetryLeases(now: int) returns (exhausted: set<nat>)
      modifies this`rows
      ensures rows == FinalizeAll(old(rows), now)
      ensures exhausted == set i | i in old(rows) && Exhausted(old(rows)[i], now)
      ensures forall i :: i in exhausted <==>
                && i in old(rows) && old(rows)[i].kind.Webhook? && old(rows)[i].status.Running?
                && old(rows)[i].attempt >= old(rows)[i].maxAttempts
                && old(rows)[i].leaseExpiresAt.Some? && old(rows)[i].leaseExpiresAt.value <= now
      ensures forall i :: i in rows ==> if i in exhausted then rows[i].status.Failed? else rows[i] == old(rows)[i]
    {
      exhausted := {};
      var todo := rows.Keys;
      while todo != {}
        invariant todo <= old(rows).Keys == rows.Keys
        invariant forall i :: i in rows ==> rows[i] == if i in todo then old(rows)[i] else Finalized(old(rows)[i], now)
        invariant exhausted == set i | i in old(rows).Keys - todo && Exhausted(old(rows)[i], now)
        decreases |todo|
      {
        var i :| i in todo;
        todo := todo - {i};
        if Exhausted(rows[i], now) {
          exhausted := exhausted + {i};
          rows := rows[i := rows[i].(status := Status.Failed, nextAttemptAt := None, owner := None, leaseExpiresAt := None)];
        }
      }
    }

    /** Decided at most once: a second decision is a replay of the first, or a conflict. */
    method AcknowledgeAction(i: nat, ok: bool) returns (updated: bool)
      modifies this`rows
      ensures updated <==> i in old(rows) && CanAck(old(rows)[i])
      ensures rows == if updated then old(rows)[i := old(rows)[i].(status := AckStatus(ok))] else old(rows)
      ensures updated ==> !CanAck(rows[i]) && (rows[i].status.Succeeded? <==> ok) && (rows[i].status.Failed? <==> !ok)
      ensures updated <==> i in old(rows) && old(rows)[i].kind.Control? && old(rows)[i].status.AwaitingAck?
    {
      updated := i in rows && rows[i].kind == Control && rows[i].status == AwaitingAck;
      if updated {
        rows := rows[i := rows[i].(status := if ok then Succeeded else Status.Failed)];
      }
    }

    method RetryAction(i: nat, now: int) returns (queued: bool)
      modifies this`rows
      ensures queued <==> i in old(rows) && CanRequeue(old(rows)[i])
      ensures rows == if queued then old(rows)[i := Requeued(old(rows)[i], now)] else old(rows)
      ensures queued <==> i in old(rows) && old(rows)[i].kind.Webhook? && old(rows)[i].attempt < old(rows)[i].maxAttempts
                          && (old(rows)[i].status.Failed? || old(rows)[i].status.RetryScheduled?)
      ensures queued ==> forall later :: Due(rows[i], later) <==> later >= now
    {
      queued := i in rows && CanRequeue(rows[i]);
      if queued {
        rows := rows[i := rows[i].(status := RetryScheduled, nextAttemptAt := Some(now),
                                   owner := None, leaseExpiresAt := None)];
      }
    }

    /** Read then write, with nobody in between. */
    method RefreshRunStatus()
      modifies this`status
      ensures status == Summarize(Statuses(rows))
      ensures status.RunSucceeded? <==> AllSucceeded(rows)
    {
      var statuses: seq<Status> := [];
      var todo := rows.Keys;
      while todo != {}
        invariant todo <= rows.Keys
        invariant (set x | x in statuses) == set i | i in rows.Keys - todo :: rows[i].status
        decreases |todo|
      {
        var i :| i in todo;
        ghost var before := rows.Keys - todo;
        todo := todo - {i};
        assert rows.Keys - todo == before + {i};
        StatusesSnoc(rows, before, i, statuses);
        statuses := statuses + [rows[i].status];
      }
      assert Statuses(rows) == set i | i in rows.Keys - {} :: rows[i].status;
      status := SummarizeActionStatuses(statuses);
      SummarizeSucceeded(rows);
    }

    /** One round of the executor's loop: insert, and for a new webhook call it and settle the outcome. */
    method RunAction(a: nat, i: nat, now: int, outcome: Outcome) returns (advance: bool, ghost steps: seq<Step>)
      requires i < |plan|
      modifies this`rows, this`calls
      ensures At(a, if advance then Walk(i + 1) else Refresh) == Run(old(At(a, Walk(i))), steps)
      ensures !advance ==> !AllSucceeded(rows)
      ensures i !in old(rows) ==> (advance <==> plan[i].Webhook? && outcome.ok)
      ensures i in old(rows) ==> rows == old(rows) && calls == old(calls)
      ensures i in rows && rows == old(rows)[i := rows[i]]
    {
      hide Next, Run, Settled;
      ghost var s0 := At(a, Walk(i));
      RunNothing(s0);
      LoneInsert(State(), a, i, now);
      RunSnoc(s0, [], InsertStep(a, now));
      steps := [] + [InsertStep(a, now)];
      var inserted := InsertResult(i, a, now);
      if !inserted {
        LoneRead(State(), a, i);
        RunSnoc(s0, steps, ReadStep(a));
        steps := steps + [ReadStep(a)];
        advance := rows[i].status == Succeeded;
      } else if plan[i] == Webhook {
        LoneCall(State(), a, i, outcome);
        RunSnoc(s0, steps, CallStep(a, outcome));
        steps := steps + [CallStep(a, outcome)];
        CallWebhook(i, 1);
        LoneSettle(State(), a, i, outcome, now);
        RunSnoc(s0, steps, SettleStep(a, now));
        steps := steps + [SettleStep(a, now)];
        SettledStatus(rows[i], outcome, 1, now);
        var persisted, durable := PersistWebhookOutcome(i, a, 1, WEBHOOK_MAX_ATTEMPTS, outcome, now);
        advance := persisted && durable == Succeeded;
        assert !advance ==> !rows[i].status.Succeeded?;
      } else {
        advance := false;
        assert !rows[i].status.Succeeded?;
      }
    }

    /**
     * One executor with no other session beside it. `outcome` is what each webhook call reports. It is a run
     * of the machine, and it ends with a status that is `succeeded` exactly when the whole plan succeeded.
     */
    method ExecuteRunActions(a: nat, now: int, outcome: nat -> Outcome) returns (ghost steps: seq<Step>)
      requires Inv(State())
      modifies this
      ensures State() == Run(old(State()), steps) && Inv(State())
      ensures status == Summarize(Statuses(rows))
      ensures status.RunSucceeded? <==> Complete(State())
      ensures AllSucceeded(rows) ==> |rows| == |plan|
      ensures status.RunSucceeded? ==> forall i: nat :: i < |plan| && i !in old(rows) ==> plan[i].Webhook? && outcome(i).ok
    {
      hide Next, Run, Inv, Summarize;
      ghost var s0 := State();
      RunNothing(s0);
      steps := [] + [OpenStep(a)];
      RunSnoc(s0, [], OpenStep(a));
      LoneOpen(s0, a);
      var i := 0;
      var stopped := false;
      while i < |plan| && !stopped
        invariant i <= |plan|
        invariant Run(s0, steps) == At(a, if stopped then Refresh else Walk(i))
        invariant stopped ==> !AllSucceeded(rows)
        invariant forall k: nat :: k < i && k !in old(rows) ==> plan[k].Webhook? && outcome(k).ok
        invariant forall k: nat :: i <= k ==> (k in rows <==> k in old(rows)) || (stopped && k == i)
        decreases |plan| - i, !stopped
      {
        ghost var more;
        var advance;
        advance, more := RunAction(a, i, now, outcome(i));
        RunConcat(s0, steps, more);
        steps := steps + more;
        stopped := !advance;
        if advance { i := i + 1; }
      }
      RunInv(s0, steps);
      WalkedOut(At(a, if stopped then Refresh else Walk(i)), a);
      if !stopped {
        LonePast(State(), a, now);
        RunSnoc(s0, steps, InsertStep(a, now));
        steps := steps + [InsertStep(a, now)];
      }
      LoneRefresh(State(), a);
      RefreshRunStatus();
      RunSnoc(s0, steps, RefreshReadStep(a));
      RunSnoc(s0, steps + [RefreshReadStep(a)], RefreshWriteStep(a));
      steps := steps + [RefreshReadStep(a)] + [RefreshWriteStep(a)];
      RunInv(s0, steps);
    }
  }
}
