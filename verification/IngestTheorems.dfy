/** What holds in every reachable state and over every continuation of it. */
module IngestTheorems {
  import opened Prelude
  import Dlq = ProjectionDlq
  import opened IngestPlane
  import opened IngestLog
  import opened IngestCursor
  import opened IngestReceipts
  import opened IngestHandover
  import opened IngestRuns
  import opened IngestSteps

  // ---- What no run undoes -------------------------------------------------------------------

  predicate WorkKept(receipts: map<nat, Receipt>, receipts': map<nat, Receipt>) {
    forall r :: r in receipts ==> r in receipts' && SameWork(receipts[r], receipts'[r])
  }

  ghost predicate Persists(s: Sys, s': Sys) {
    && s.db.events <= s'.db.events && WorkKept(s.db.receipts, s'.db.receipts)
    && CheckpointsAdvance(s.db.checkpoints, s'.db.checkpoints)
    && s.db.projected <= s'.db.projected && s.db.swept <= s'.db.swept
    && Dlq.Grows(s.db.dlq, s'.db.dlq)
  }

  lemma PersistsTransitive(a: Sys, b: Sys, c: Sys)
    requires Persists(a, b) && Persists(b, c)
    ensures Persists(a, c)
  {}

  lemma HeldOpen(s: Sys)
    requires Inv(s)
    ensures Dlq.Sound(s.db.dlq) && HeldRowsOpen(s.db.dlq)
  {}

  /** Events, receipts, projections and dead letters are never lost; checkpoints never move back. */
  lemma {:induction false} RunPersists(s: Sys, steps: seq<Step>)
    requires Inv(s)
    ensures Persists(s, Run(s, steps))
    decreases |steps|
  {
    hide Inv, Next;
    if steps != [] {
      var n := |steps| - 1;
      var mid := Run(s, steps[..n]);
      RunInv(s, steps[..n]);
      RunPersists(s, steps[..n]);
      ReceiptsMove(mid, steps[n]);
      TablesGrow(mid, steps[n]);
      HeldOpen(mid);
      DeadLettersMove(mid, steps[n]);
      PersistsTransitive(s, mid, Next(mid, steps[n]));
    }
  }

  // ---- Order --------------------------------------------------------------------------------

  /** Whatever clock the inserts read, a committed event lies strictly after its lane's checkpoint. */
  lemma NewEventsAheadOfEveryCheckpoint(steps: seq<Step>, t: nat, ids: seq<nat>, now: int, e: Event)
    requires var s := Run(Empty, steps); e in Commit(s, t, ids, now).db.events && e !in s.db.events
    ensures var c := Commit(Run(Empty, steps), t, ids, now).db.checkpoints;
            LaneOf(e) in c ==> Before(c[LaneOf(e)], StampOf(e))
    ensures forall f :: f in Run(Empty, steps).db.events && f.tenant == e.tenant && f.payload.workflow == e.payload.workflow ==>
              f.at < e.at
  {
    ReachableInv(steps);
    CommittedIsAhead(Run(Empty, steps), t, ids, now, e);
  }

  lemma CommittedIsAhead(s: Sys, t: nat, ids: seq<nat>, now: int, e: Event)
    requires LogInv(s.db.events, s.txns)
    requires forall lane :: lane in s.db.checkpoints ==> Stamped(s.db.events, lane, s.db.checkpoints[lane])
    requires e in Commit(s, t, ids, now).db.events && e !in s.db.events
    ensures var c := Commit(s, t, ids, now).db.checkpoints; LaneOf(e) in c ==> Before(c[LaneOf(e)], StampOf(e))
    ensures forall f :: f in s.db.events && LaneOf(f) == LaneOf(e) ==> f.at < e.at
  {
    hide TxnOk, Separate, Stamped, Good;
    var txn := s.txns[t];
    assert TxnOk(s.db.events, txn);
    var j :| 0 <= j < |txn.staged| && txn.staged[j] == e;
    StagedIsAhead(s.db.events, s.db.checkpoints, txn, j);
  }

  // ---- Responsibility -----------------------------------------------------------------------

  ghost predicate IsHandled(s: Sys, e: Event) { e.id in Handled(s.db.projected, s.db.dlq) }

  ghost predicate Behind(s: Sys, e: Event) {
    LaneOf(e) in s.db.checkpoints && NotAfter(StampOf(e), s.db.checkpoints[LaneOf(e)])
  }

  lemma OwnId(es: seq<Event>, e: Event)
    requires e in es
    ensures e.id in Ids(es)
  {}

  /** The exact account: an event is projected or dead-lettered iff a page or its own receipt's transactions took it. */
  lemma HandledExactlyWhenTaken(steps: seq<Step>, r: nat, e: Event)
    requires var s := Run(Empty, steps); r in s.db.receipts && e in s.db.receipts[r].events
    ensures var s := Run(Empty, steps);
            IsHandled(s, e) <==> e.id in s.db.swept || s.db.receipts[r].status.Completed? || s.db.receipts[r].failures > 0
  {
    ReachableInv(steps);
    var s := Run(Empty, steps);
    OwnId(s.db.receipts[r].events, e);
    assert ReceiptHandover(s.db.receipts[r], Handled(s.db.projected, s.db.dlq), s.db.swept);
  }

  /** The one way an accepted event can be left with nobody responsible: its receipt died by lease expiry alone. */
  predicate DiedUnrecorded(r: Receipt) {
    r.status.Failed? && r.errorClass.WorkerLeaseExpired? && r.failures == 0
  }

  /** Where an event stands, given its receipt. */
  ghost predicate LookedAfter(s: Sys, e: Event, r: Receipt) {
    && (IsHandled(s, e) || r.status.Queued? || r.status.Running? || r.status.RetryScheduled? || DiedUnrecorded(r))
    && (r.status.Completed? ==> (e.id, r.version) in s.db.projected)
  }

  ghost predicate OnlyReceipt(s: Sys, e: Event, r: nat) {
    && r in s.db.receipts && e in s.db.receipts[r].events
    && forall q :: q in s.db.receipts && e in s.db.receipts[q].events ==> q == r
  }

  /**
   * Every accepted event, ahead of or behind the watermark, belongs to exactly one receipt; it is projected,
   * dead-lettered, still scheduled or running, or its receipt died without recording a failure.
   */
  lemma NothingSilentlyDropped(steps: seq<Step>, e: Event)
    requires e in Run(Empty, steps).db.events
    ensures exists r :: OnlyReceipt(Run(Empty, steps), e, r)
                        && LookedAfter(Run(Empty, steps), e, Run(Empty, steps).db.receipts[r])
  {
    ReachableInv(steps);
    var s := Run(Empty, steps);
    assert InSomeReceipt(s.db.receipts, e);
    var r :| r in s.db.receipts && e in s.db.receipts[r].events;
    var receipt := s.db.receipts[r];
    OwnId(receipt.events, e);
    forall q | q in s.db.receipts && e in s.db.receipts[q].events ensures q == r {
      OwnId(s.db.receipts[q].events, e);
      assert q != r ==> Unshared(s.db.receipts[q], receipt);
    }
    HandledExactlyWhenTaken(steps, r, e);
    assert ReceiptOk(receipt, s.db.events, s.db.projected);
    var i :| 0 <= i < |receipt.events| && receipt.events[i] == e;
    assert (receipt.events[i].id, receipt.version) in Pairs(receipt.events, receipt.version);
    assert OnlyReceipt(s, e, r) && LookedAfter(s, e, receipt);
  }

  /** A failure a client can see with any other error class has handed every event over. */
  lemma RecordedFailureHandsOver(steps: seq<Step>, r: nat, e: Event)
    requires var s := Run(Empty, steps); r in s.db.receipts && e in s.db.receipts[r].events
    requires var q := Run(Empty, steps).db.receipts[r]; q.status.Failed? && !q.errorClass.WorkerLeaseExpired?
    ensures IsHandled(Run(Empty, steps), e)
  {
    ReachableInv(steps);
    HandledExactlyWhenTaken(steps, r, e);
    assert ReceiptOk(Run(Empty, steps).db.receipts[r], Run(Empty, steps).db.events, Run(Empty, steps).db.projected);
  }

  /** A committed failure leaves an open dead-letter row for every event under the receipt's own version. */
  lemma FailureOpensRows(s: Sys, w: nat, now: int, j: nat)
    requires Inv(s) && Current(s, w) && j < |s.db.receipts[s.jobs[w].receipt].events|
    ensures var r := s.db.receipts[s.jobs[w].receipt];
            Dlq.HasOpen(Fail(s, w, now).db.dlq, Dlq.Key(LaneOfGroup(r.group), r.events[j].id, r.version))
  {
    var r := s.db.receipts[s.jobs[w].receipt];
    var keys := DlqKeys(LaneOfGroup(r.group), r.events, r.version);
    Dlq.EnqueueAllOpens(s.db.dlq, keys, now);
    assert Dlq.HasOpen(Fail(s, w, now).db.dlq, keys[j]);
  }

  // ---- Fencing ------------------------------------------------------------------------------

  /** Without the fence neither transaction of a worker, nor its heartbeat, changes a table. */
  lemma StaleCommitsNothing(s: Sys, w: nat, now: int, rows: seq<Results.Row>)
    requires !Current(s, w)
    ensures Succeed(s, w, now, rows).db == s.db && Fail(s, w, now).db == s.db && Heartbeat(s, w, now).db == s.db
  {}

  predicate EndsJob(step: Step, w: nat) {
    step == WorkerStopsStep(w) || (step.FailStep? && step.w == w)
  }

  lemma JobKept(s: Sys, step: Step, w: nat)
    requires w in s.jobs && !Current(s, w) && !EndsJob(step, w)
    ensures w in Next(s, step).jobs && Next(s, step).jobs[w] == s.jobs[w]
  {
    hide Begin, Fence, Stage, SweepStart, SuccessTables, FailureTables, RowsFit;
    if LeavesJobs(step) { JobsUntouched(s, step); }
  }

  /** The worker still believes in a claim that the database no longer honours. */
  predicate Stale(s: Sys, w: nat, job: Job) {
    w in s.jobs && s.jobs[w] == job && !Current(s, w)
  }

  lemma StaleStaysStale(s: Sys, step: Step, w: nat, job: Job)
    requires Stale(s, w, job) && job.receipt in s.db.receipts && !EndsJob(step, w)
    ensures Stale(Next(s, step), w, job)
  {
    JobKept(s, step, w);
    ReceiptsMove(s, step);
    assert RowMoves(s.db.receipts[job.receipt], Next(s, step).db.receipts[job.receipt], s.jobs);
  }

  lemma JobHasReceipt(s: Sys, w: nat)
    requires Inv(s) && w in s.jobs
    ensures s.jobs[w].receipt in s.db.receipts
  {}

  /** Once recovered, reclaimed or revived under it, a worker can commit nothing for the rest of that job. */
  lemma {:induction false} StaleForever(s: Sys, steps: seq<Step>, w: nat, job: Job)
    requires Inv(s) && Stale(s, w, job)
    requires forall i :: 0 <= i < |steps| ==> !EndsJob(steps[i], w)
    ensures Stale(Run(s, steps), w, job)
    decreases |steps|
  {
    hide Inv, Next;
    if steps != [] {
      var n := |steps| - 1;
      var mid := Run(s, steps[..n]);
      StaleForever(s, steps[..n], w, job);
      RunInv(s, steps[..n]);
      JobHasReceipt(mid, w);
      StaleStaysStale(mid, steps[n], w, job);
    }
  }

  /** The whole story for a worker whose lease ran out: recovery fences it off for good. */
  lemma RecoveredWorkerCommitsNothing(s: Sys, w: nat, recoveredAt: int, steps: seq<Step>, now: int, rows: seq<Results.Row>)
    requires Inv(s) && Current(s, w) && Lapsed(s.db.receipts[s.jobs[w].receipt].leaseExpiresAt, recoveredAt)
    requires forall i :: 0 <= i < |steps| ==> !EndsJob(steps[i], w)
    ensures var s' := Run(Recover(s, recoveredAt), steps);
            Succeed(s', w, now, rows).db == s'.db && Fail(s', w, now).db == s'.db && Heartbeat(s', w, now).db == s'.db
  {
    RecoverInv(s, recoveredAt);
    StaleForever(Recover(s, recoveredAt), steps, w, s.jobs[w]);
    StaleCommitsNothing(Run(Recover(s, recoveredAt), steps), w, now, rows);
  }

  /** `completed` is absorbing: no step of any run writes a completed row again. */
  lemma {:induction false} CompletedForever(s: Sys, steps: seq<Step>, r: nat)
    requires Inv(s) && r in s.db.receipts && s.db.receipts[r].status.Completed?
    ensures var s' := Run(s, steps); r in s'.db.receipts && s'.db.receipts[r] == s.db.receipts[r]
    decreases |steps|
  {
    hide Inv, Next;
    if steps != [] {
      var n := |steps| - 1;
      RunInv(s, steps[..n]);
      CompletedForever(s, steps[..n], r);
      ReceiptsMove(Run(s, steps[..n]), steps[n]);
    }
  }

  /** Exactly one success transaction commits per completed receipt, and none before. */
  lemma ExactlyOneSuccess(steps: seq<Step>, r: nat)
    requires r in Run(Empty, steps).db.receipts
    ensures var q := Run(Empty, steps).db.receipts[r]; q.successes == (if q.status.Completed? then 1 else 0)
  {
    ReachableInv(steps);
    assert ReceiptOk(Run(Empty, steps).db.receipts[r], Run(Empty, steps).db.events, Run(Empty, steps).db.projected);
  }

  // ---- Dead letters -------------------------------------------------------------------------

  /** At most one open row per key; a resolved row's event was projected under the row's own version. */
  lemma DeadLetterSafety(steps: seq<Step>)
    ensures var dlq := Run(Empty, steps).db.dlq;
            && (forall i, j :: 0 <= i < j < |dlq| && dlq[i].key == dlq[j].key ==> dlq[i].resolved || dlq[j].resolved)
            && (forall i :: 0 <= i < |dlq| && dlq[i].resolved ==>
                  (dlq[i].key.event, dlq[i].key.version) in Run(Empty, steps).db.projected)
            && (forall i :: 0 <= i < |dlq| ==> dlq[i].attempts <= 10)
  {
    ReachableInv(steps);
    var s := Run(Empty, steps);
    forall i | 0 <= i < |s.db.dlq| && s.db.dlq[i].resolved
      ensures (s.db.dlq[i].key.event, s.db.dlq[i].key.version) in s.db.projected
    {
      assert RowOk(s.db.dlq[i], s.db.projected);
    }
  }

  /** A resolved row is never reopened and keeps naming the same event and version. */
  lemma NeverReopened(s: Sys, steps: seq<Step>, i: nat)
    requires Inv(s) && i < |s.db.dlq|
    ensures var dlq := Run(s, steps).db.dlq;
            i < |dlq| && dlq[i].key == s.db.dlq[i].key && (s.db.dlq[i].resolved ==> dlq[i].resolved)
  {
    RunPersists(s, steps);
  }

  /** Does this step take a retry lease on row i? */
  predicate Takes(s: Sys, step: Step, i: nat) {
    step.RetryTakeStep? && step.row == i && step.o !in s.retries && i < |s.db.dlq| && Dlq.CanTake(s.db.dlq[i], step.now)
  }

  ghost function TakeCount(s: Sys, steps: seq<Step>, i: nat): nat
    decreases |steps|
  {
    if steps == [] then 0
    else
      var n := |steps| - 1;
      TakeCount(s, steps[..n], i) + if Takes(Run(s, steps[..n]), steps[n], i) then 1 else 0
  }

  function AttemptsOf(dlq: Dlq.Table, i: nat): nat { if i < |dlq| then dlq[i].attempts else 0 }

  lemma TakeRaises(s: Sys, step: Step, i: nat)
    requires Dlq.Sound(s.db.dlq) && HeldRowsOpen(s.db.dlq)
    ensures AttemptsOf(s.db.dlq, i) + (if Takes(s, step, i) then 1 else 0) <= AttemptsOf(Next(s, step).db.dlq, i)
  {
    DeadLettersMove(s, step);
  }

  lemma {:induction false} TakesRaiseAttempts(s: Sys, steps: seq<Step>, i: nat)
    requires Inv(s)
    ensures AttemptsOf(s.db.dlq, i) + TakeCount(s, steps, i) <= AttemptsOf(Run(s, steps).db.dlq, i)
    decreases |steps|
  {
    hide Inv, Next;
    if steps != [] {
      var n := |steps| - 1;
      TakesRaiseAttempts(s, steps[..n], i);
      RunInv(s, steps[..n]);
      HeldOpen(Run(s, steps[..n]));
      TakeRaises(Run(s, steps[..n]), steps[n], i);
    }
  }

  /** In any run whatsoever a dead-letter row is retried at most ten times. */
  lemma RetriedAtMostMaxAttempts(steps: seq<Step>, i: nat)
    ensures TakeCount(Empty, steps, i) <= 10
  {
    StartInv();
    TakesRaiseAttempts(Empty, steps, i);
    ReachableInv(steps);
  }

  predicate EndsRetry(step: Step, o: nat) {
    step == RetryStopsStep(o) || (step.RetryRescheduleStep? && step.o == o)
  }

  lemma RetryKept(s: Sys, step: Step, o: nat)
    requires o in s.retries && !HoldsRow(s, o) && !EndsRetry(step, o)
    ensures o in Next(s, step).retries && Next(s, step).retries[o].row == s.retries[o].row
  {
    hide Begin, Fence, Stage, SweepStart, SuccessTables, FailureTables, SweepTables, Oversize, RowsFit;
    if Drafts(step) { DraftsLeaveTables(s, step); }
  }

  lemma LostRowStaysLost(s: Sys, step: Step, o: nat)
    requires Dlq.Sound(s.db.dlq) && HeldRowsOpen(s.db.dlq)
    requires o in s.retries && s.retries[o].row < |s.db.dlq| && !HoldsRow(s, o) && !EndsRetry(step, o)
    ensures var s' := Next(s, step); o in s'.retries && s'.retries[o].row == s.retries[o].row && !HoldsRow(s', o)
  {
    RetryKept(s, step, o);
    DeadLettersMove(s, step);
  }

  lemma LostRetrierWritesNothing(s: Sys, o: nat, now: int)
    requires !HoldsRow(s, o)
    ensures RetryResolve(s, o).db == s.db && RetryReschedule(s, o, now).db == s.db
  {}

  lemma RetryHasRow(s: Sys, o: nat)
    requires Inv(s) && o in s.retries
    ensures s.retries[o].row < |s.db.dlq|
  {
    assert RetryOk(s.db.dlq, s.db.projected, s.retries[o]);
  }

  /** A retrier that lost its row can neither resolve nor reschedule it, ever again. */
  lemma {:induction false} LostRetrierIsPowerless(s: Sys, steps: seq<Step>, o: nat, now: int)
    requires Inv(s) && o in s.retries && !HoldsRow(s, o)
    requires forall i :: 0 <= i < |steps| ==> !EndsRetry(steps[i], o)
    ensures var s' := Run(s, steps);
            o in s'.retries && !HoldsRow(s', o)
            && RetryResolve(s', o).db == s'.db && RetryReschedule(s', o, now).db == s'.db
    decreases |steps|
  {
    hide Inv, Next, RetryResolve, RetryReschedule, HoldsRow;
    if steps != [] {
      var n := |steps| - 1;
      RunInv(s, steps[..n]);
      LostRetrierIsPowerless(s, steps[..n], o, now);
      var mid := Run(s, steps[..n]);
      HeldOpen(mid);
      RetryHasRow(mid, o);
      LostRowStaysLost(mid, steps[n], o);
    }
    LostRetrierWritesNothing(Run(s, steps), o, now);
  }
}
