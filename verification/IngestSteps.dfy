/** What one step may do to each table, whatever the state: the local facts behind the run theorems. */
module IngestSteps {
  import opened Prelude
  import Dlq = ProjectionDlq
  import Results = StreamResults
  import opened IngestPlane
  import opened IngestReceipts

  /** The steps that only prepare: nothing is committed by them. */
  predicate Drafts(step: Step) {
    step.BeginStep? || step.FenceStep? || step.StageStep? || step.SweepStartStep?
  }

  lemma DraftsLeaveTables(s: Sys, step: Step)
    requires Drafts(step)
    ensures Next(s, step) == s.(txns := Next(s, step).txns, sweeps := Next(s, step).sweeps)
    ensures !step.SweepStartStep? ==> Next(s, step).sweeps == s.sweeps
  {
    hide IsPage, IsFencePlan, FenceFree, NextAt, FindClient, FreshId, ClientStagedElsewhere;
  }

  // ---- Receipts -----------------------------------------------------------------------------

  predicate SameWork(r: Receipt, r': Receipt) {
    r'.events == r.events && r'.group == r.group && r'.version == r.version
  }

  /** An operator-visible revival of this receipt: an exact client retry. */
  predicate Revives(step: Step, r: nat) {
    step.WakeStep? && step.revive && r in step.receipts
  }

  /** A row becomes running, or changes hands while running, only for an owner that had no job. */
  predicate RowMoves(q: Receipt, q': Receipt, jobs: map<nat, Job>) {
    && SameWork(q, q')
    && (q.status.Completed? ==> q' == q)
    && q.failures <= q'.failures
    && (q'.status.Running? ==>
          || (q.status.Running? && q'.owner == q.owner && q'.attempts == q.attempts)
          || (q'.owner.Some? && q'.owner.value !in jobs))
  }

  predicate MovesTo(receipts: map<nat, Receipt>, receipts': map<nat, Receipt>, jobs: map<nat, Job>) {
    forall r :: r in receipts ==> r in receipts' && RowMoves(receipts[r], receipts'[r], jobs)
  }

  lemma CommitMoves(s: Sys, t: nat, ids: seq<nat>, now: int)
    ensures MovesTo(s.db.receipts, Commit(s, t, ids, now).db.receipts, s.jobs)
    ensures forall r :: r in s.db.receipts ==> Commit(s, t, ids, now).db.receipts[r] == s.db.receipts[r]
  {
    if CanCommit(s, t) {
      var txn := s.txns[t];
      if !Oversize(txn.staged) && |ids| == |GroupKeys(txn.staged)| && UsableIds(s.db.receipts, ids) {
        AddReceiptsLookup(s.db.receipts, ids, txn.staged, txn.config, now, |ids|);
      }
    }
  }

  lemma RowRulesMove(s: Sys, ids: set<nat>, revive: bool, now: int)
    ensures MovesTo(s.db.receipts, Wake(s, ids, revive, now).db.receipts, s.jobs)
    ensures MovesTo(s.db.receipts, Recover(s, now).db.receipts, s.jobs)
  {}

  lemma NoReceiptMoves(receipts: map<nat, Receipt>, jobs: map<nat, Job>)
    ensures MovesTo(receipts, receipts, jobs)
  {}

  /** The steps that write no receipt row. */
  predicate LeavesReceipts(step: Step) {
    match step
    case CommitStep(_, _, _) => false
    case WakeStep(_, _, _) => false
    case RecoverStep(_) => false
    case ClaimStep(_, _, _) => false
    case HeartbeatStep(_, _) => false
    case SucceedStep(_, _, _) => false
    case FailStep(_, _) => false
    case _ => true
  }

  lemma ReceiptsStay(s: Sys, step: Step)
    requires LeavesReceipts(step)
    ensures Next(s, step).db.receipts == s.db.receipts
  {
    hide Begin, Fence, Stage, SweepStart;
    if Drafts(step) { DraftsLeaveTables(s, step); }
  }

  lemma ClaimMoves(s: Sys, w: nat, r: nat, now: int)
    ensures MovesTo(s.db.receipts, Claim(s, w, r, now).db.receipts, s.jobs)
    ensures MovesTo(s.db.receipts, Heartbeat(s, w, now).db.receipts, s.jobs)
  {}

  lemma OneRowMoves(receipts: map<nat, Receipt>, jobs: map<nat, Job>, id: nat, q: Receipt)
    requires id in receipts && RowMoves(receipts[id], q, jobs)
    ensures MovesTo(receipts, receipts[id := q], jobs)
  {}

  lemma SucceedMoves(s: Sys, w: nat, now: int, rows: seq<Results.Row>)
    ensures MovesTo(s.db.receipts, Succeed(s, w, now, rows).db.receipts, s.jobs)
  {
    hide AdvanceFromMeta, ScopeOf, DlqKeys, KeySet, Pairs;
    if Current(s, w) { OneRowMoves(s.db.receipts, s.jobs, s.jobs[w].receipt, Finished(s.db.receipts[s.jobs[w].receipt])); }
  }

  lemma FailMoves(s: Sys, w: nat, now: int)
    ensures MovesTo(s.db.receipts, Fail(s, w, now).db.receipts, s.jobs)
  {
    hide DlqKeys, FailureDelay;
    if Current(s, w) { OneRowMoves(s.db.receipts, s.jobs, s.jobs[w].receipt, Aborted(s.db.receipts[s.jobs[w].receipt], now)); }
  }

  lemma ReceiptsMove(s: Sys, step: Step)
    ensures MovesTo(s.db.receipts, Next(s, step).db.receipts, s.jobs)
  {
    hide MovesTo, Begin, Fence, Stage, Commit, Wake, Recover, Claim, Heartbeat, Succeed, Fail;
    hide SweepStart, SweepOk, SweepFail, RetryTake, RetryProject, RetryResolve, RetryReschedule;
    match step
    case CommitStep(t, ids, now) => CommitMoves(s, t, ids, now);
    case WakeStep(ids, revive, now) => RowRulesMove(s, ids, revive, now);
    case RecoverStep(now) => RowRulesMove(s, {}, false, now);
    case ClaimStep(w, r, now) => ClaimMoves(s, w, r, now);
    case HeartbeatStep(w, now) => ClaimMoves(s, w, 0, now);
    case SucceedStep(w, now, rows) => SucceedMoves(s, w, now, rows);
    case FailStep(w, now) => FailMoves(s, w, now);
    case _ =>
      ReceiptsStay(s, step);
      NoReceiptMoves(s.db.receipts, s.jobs);
  }

  /** A terminally failed row is left alone by everything except a revival. */
  lemma FailedMovesOnlyByRevival(s: Sys, step: Step, r: nat)
    requires r in s.db.receipts && s.db.receipts[r].status.Failed? && !Revives(step, r)
    ensures r in Next(s, step).db.receipts && Next(s, step).db.receipts[r] == s.db.receipts[r]
  {
    if LeavesReceipts(step) {
      ReceiptsStay(s, step);
    } else {
      FailedLeftAlone(s, step, r);
    }
  }

  lemma FailedLeftAlone(s: Sys, step: Step, r: nat)
    requires r in s.db.receipts && s.db.receipts[r].status.Failed? && !Revives(step, r) && !LeavesReceipts(step)
    ensures r in Next(s, step).db.receipts && Next(s, step).db.receipts[r] == s.db.receipts[r]
  {
    hide Aborted, Finished, Claimed;
    match step
    case CommitStep(t, ids, now) => CommitMoves(s, t, ids, now);
    case _ =>
  }

  /** The steps that start or end no worker's job. */
  predicate LeavesJobs(step: Step) {
    !step.ClaimStep? && !step.SucceedStep? && !step.FailStep? && !step.WorkerStopsStep?
  }

  lemma JobsUntouched(s: Sys, step: Step)
    requires LeavesJobs(step)
    ensures Next(s, step).jobs == s.jobs
  {
    hide Begin, Fence, Stage, SweepStart, SweepTables, Oversize;
    if Drafts(step) { DraftsLeaveTables(s, step); }
  }

  // ---- Events, checkpoints, history ---------------------------------------------------------

  predicate CheckpointsAdvance(c: map<Lane, Stamp>, c': map<Lane, Stamp>) {
    forall lane :: lane in c ==> lane in c' && NotAfter(c[lane], c'[lane])
  }

  ghost predicate Grown(db: Db, db': Db) {
    && db.events <= db'.events && CheckpointsAdvance(db.checkpoints, db'.checkpoints)
    && db.projected <= db'.projected && db.swept <= db'.swept
  }

  predicate SameHistory(db: Db, db': Db) {
    db'.events == db.events && db'.checkpoints == db.checkpoints && db'.projected == db.projected && db'.swept == db.swept
  }

  lemma NothingLost(db: Db, db': Db)
    requires SameHistory(db, db')
    ensures Grown(db, db')
  {}

  /** The steps that touch neither events nor checkpoints nor what was projected or swept. */
  predicate LeavesHistory(step: Step) {
    match step
    case CommitStep(_, _, _) => false
    case SucceedStep(_, _, _) => false
    case SweepOkStep(_, _, _) => false
    case SweepFailStep(_, _) => false
    case RetryProjectStep(_, _) => false
    case _ => true
  }

  lemma HistoryStays(s: Sys, step: Step)
    requires LeavesHistory(step)
    ensures SameHistory(s.db, Next(s, step).db)
  {
    hide Begin, Fence, Stage, SweepStart, DlqKeys, Aborted, Claimable, Claimed, Woken, Recovered;
    if Drafts(step) { DraftsLeaveTables(s, step); }
  }

  lemma CommitGrows(s: Sys, t: nat, ids: seq<nat>, now: int)
    ensures Grown(s.db, Commit(s, t, ids, now).db)
  {}

  lemma SuccessGrows(s: Sys, w: nat, now: int, rows: seq<Results.Row>)
    ensures Grown(s.db, Succeed(s, w, now, rows).db)
  {}

  lemma PageGrows(s: Sys, lane: Lane, now: int, rows: seq<Results.Row>)
    ensures Grown(s.db, SweepOk(s, lane, now, rows).db) && Grown(s.db, SweepFail(s, lane, now).db)
  {}

  lemma RetryGrows(s: Sys, o: nat, rows: seq<Results.Row>)
    ensures Grown(s.db, RetryProject(s, o, rows).db)
  {}

  /** Events, checkpoints and history only grow. */
  lemma TablesGrow(s: Sys, step: Step)
    ensures Grown(s.db, Next(s, step).db)
  {
    hide Grown, Begin, Fence, Stage, Commit, Wake, Recover, Claim, Heartbeat, Succeed, Fail;
    hide SweepStart, SweepOk, SweepFail, RetryTake, RetryProject, RetryResolve, RetryReschedule;
    match step
    case CommitStep(t, ids, now) => CommitGrows(s, t, ids, now);
    case SucceedStep(w, now, rows) => SuccessGrows(s, w, now, rows);
    case SweepOkStep(lane, now, rows) => PageGrows(s, lane, now, rows);
    case SweepFailStep(lane, now) => PageGrows(s, lane, now, []);
    case RetryProjectStep(o, rows) => RetryGrows(s, o, rows);
    case _ =>
      HistoryStays(s, step);
      NothingLost(s.db, Next(s, step).db);
  }

  // ---- Dead letters -------------------------------------------------------------------------

  /** A row's lock moves to a retrier only when that retrier had no retry in flight. */
  ghost predicate LocksMove(t: Dlq.Table, t': Dlq.Table, retries: map<nat, Retry>) {
    forall i, o: nat :: 0 <= i < |t'| && t'[i].lockedBy == Some(o) ==>
      (i < |t| && t[i].lockedBy == Some(o)) || o !in retries
  }

  lemma EnqueueMoves(t: Dlq.Table, keys: seq<Dlq.Key>, now: int, retries: map<nat, Retry>)
    requires Dlq.Sound(t)
    ensures Dlq.Grows(t, Dlq.EnqueueAll(t, keys, now)) && LocksMove(t, Dlq.EnqueueAll(t, keys, now), retries)
  {
    Dlq.EnqueueAllKeeps(t, keys, now);
  }

  lemma ResolveMoves(t: Dlq.Table, keys: set<Dlq.Key>, now: int, retries: map<nat, Retry>)
    requires Dlq.Sound(t)
    ensures Dlq.Grows(t, Dlq.ResolveAll(t, keys, now)) && LocksMove(t, Dlq.ResolveAll(t, keys, now), retries)
  {}

  /** Retriers reschedule only rows they hold, and a held row is open. */
  ghost predicate HeldRowsOpen(t: Dlq.Table) {
    forall i :: 0 <= i < |t| && t[i].resolved ==> t[i].lockedBy.None?
  }

  lemma UpdateMoves(t: Dlq.Table, i: nat, row: Dlq.Row, retries: map<nat, Retry>)
    requires i < |t| && row.key == t[i].key && (t[i].resolved ==> row.resolved) && t[i].attempts <= row.attempts
    requires row.lockedBy.Some? ==> row.lockedBy.value !in retries
    ensures Dlq.Grows(t, t[i := row]) && LocksMove(t, t[i := row], retries)
  {}

  lemma TakeMoves(s: Sys, o: nat, i: nat, now: int)
    ensures var t' := RetryTake(s, o, i, now).db.dlq; Dlq.Grows(s.db.dlq, t') && LocksMove(s.db.dlq, t', s.retries)
  {
    if o !in s.retries && i < |s.db.dlq| { UpdateMoves(s.db.dlq, i, Dlq.Taken(s.db.dlq[i], o, now), s.retries); }
  }

  lemma CloseMoves(s: Sys, o: nat)
    ensures var t' := RetryResolve(s, o).db.dlq; Dlq.Grows(s.db.dlq, t') && LocksMove(s.db.dlq, t', s.retries)
  {}

  lemma RescheduleMoves(s: Sys, o: nat, now: int)
    requires HeldRowsOpen(s.db.dlq)
    ensures var t' := RetryReschedule(s, o, now).db.dlq; Dlq.Grows(s.db.dlq, t') && LocksMove(s.db.dlq, t', s.retries)
  {
    if HoldsRow(s, o) {
      var row := s.db.dlq[s.retries[o].row];
      UpdateMoves(s.db.dlq, s.retries[o].row, Dlq.Rescheduled(row, now, s.retries[o].attempts), s.retries);
    }
  }

  lemma NothingMoves(t: Dlq.Table, retries: map<nat, Retry>)
    ensures Dlq.Grows(t, t) && LocksMove(t, t, retries)
  {}

  predicate LeavesDeadLetters(step: Step) {
    match step
    case SucceedStep(_, _, _) => false
    case FailStep(_, _) => false
    case SweepOkStep(_, _, _) => false
    case SweepFailStep(_, _) => false
    case RetryTakeStep(_, _, _) => false
    case RetryResolveStep(_) => false
    case RetryRescheduleStep(_, _) => false
    case _ => true
  }

  lemma DeadLettersStay(s: Sys, step: Step)
    requires LeavesDeadLetters(step)
    ensures Next(s, step).db.dlq == s.db.dlq
  {
    hide Begin, Fence, Stage, SweepStart;
    if Drafts(step) { DraftsLeaveTables(s, step); }
  }

  /** What any step may do to the dead letters. */
  ghost predicate DlqMoves(s: Sys, t': Dlq.Table) { Dlq.Grows(s.db.dlq, t') && LocksMove(s.db.dlq, t', s.retries) }

  lemma WorkerDlqMoves(s: Sys, w: nat, now: int, rows: seq<Results.Row>)
    requires Dlq.Sound(s.db.dlq)
    ensures DlqMoves(s, Succeed(s, w, now, rows).db.dlq) && DlqMoves(s, Fail(s, w, now).db.dlq)
  {
    NothingMoves(s.db.dlq, s.retries);
    if Current(s, w) {
      var r := s.db.receipts[s.jobs[w].receipt];
      ResolveMoves(s.db.dlq, KeySet(DlqKeys(LaneOfGroup(r.group), r.events, r.version)), now, s.retries);
      EnqueueMoves(s.db.dlq, DlqKeys(LaneOfGroup(r.group), r.events, r.version), now, s.retries);
    }
    hide Dlq.Grows, LocksMove;
  }

  lemma PageDlqMoves(s: Sys, lane: Lane, now: int, rows: seq<Results.Row>)
    requires Dlq.Sound(s.db.dlq)
    ensures DlqMoves(s, SweepOk(s, lane, now, rows).db.dlq) && DlqMoves(s, SweepFail(s, lane, now).db.dlq)
  {
    NothingMoves(s.db.dlq, s.retries);
    if lane in s.sweeps {
      var sw := s.sweeps[lane];
      ResolveMoves(s.db.dlq, KeySet(DlqKeys(lane, sw.page, sw.version)), now, s.retries);
      EnqueueMoves(s.db.dlq, DlqKeys(lane, sw.page, sw.version), now, s.retries);
    }
    hide Dlq.Grows, LocksMove;
  }

  lemma DeadLettersMove(s: Sys, step: Step)
    requires Dlq.Sound(s.db.dlq) && HeldRowsOpen(s.db.dlq)
    ensures Dlq.Grows(s.db.dlq, Next(s, step).db.dlq) && LocksMove(s.db.dlq, Next(s, step).db.dlq, s.retries)
  {
    hide Dlq.Grows, LocksMove, Dlq.Sound, HeldRowsOpen, Begin, Fence, Stage, Commit, Wake, Recover, Claim, Heartbeat;
    hide Succeed, Fail, SweepStart, SweepOk, SweepFail, RetryTake, RetryProject, RetryResolve, RetryReschedule;
    match step
    case SucceedStep(w, now, rows) => WorkerDlqMoves(s, w, now, rows);
    case FailStep(w, now) => WorkerDlqMoves(s, w, now, []);
    case SweepOkStep(lane, now, rows) => PageDlqMoves(s, lane, now, rows);
    case SweepFailStep(lane, now) => PageDlqMoves(s, lane, now, []);
    case RetryTakeStep(o, i, now) => TakeMoves(s, o, i, now);
    case RetryResolveStep(o) => CloseMoves(s, o);
    case RetryRescheduleStep(o, now) => RescheduleMoves(s, o, now);
    case _ =>
      DeadLettersStay(s, step);
      NothingMoves(s.db.dlq, s.retries);
  }
}
