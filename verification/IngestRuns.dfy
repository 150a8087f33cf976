/** The invariants together, kept by every step and hence by every run from the empty database. */
module IngestRuns {
  import opened Prelude
  import Dlq = ProjectionDlq
  import opened IngestPlane
  import opened IngestLog
  import opened IngestCursor
  import opened IngestReceipts
  import opened IngestHandover

  ghost predicate Inv(s: Sys) {
    && LogInv(s.db.events, s.txns)
    && CursorInv(s.db.events, s.db.checkpoints, s.sweeps, s.db.swept)
    && ReceiptsInv(s.db.events, s.db.receipts, s.jobs, s.db.projected)
    && HandoverInv(s.db.events, s.db.receipts, Handled(s.db.projected, s.db.dlq), s.db.swept)
    && DlqInv(s.db.dlq, s.db.projected, s.retries)
  }

  lemma StartInv()
    ensures Inv(Empty)
  {}

  lemma CommitInv(s: Sys, t: nat, ids: seq<nat>, now: int)
    requires Inv(s)
    ensures Inv(Commit(s, t, ids, now))
  {
    CommitKeeps(s, t, ids, now);
    CommitCursorKeeps(s, t, ids, now);
    CommitReceiptsKeep(s, t, ids, now);
    if CanCommit(s, t) && !Oversize(s.txns[t].staged) && |ids| == |GroupKeys(s.txns[t].staged)| && UsableIds(s.db.receipts, ids) {
      assert TxnOk(s.db.events, s.txns[t]);
      AcceptedHandover(s.db.events, s.txns[t], s.db.receipts, Handled(s.db.projected, s.db.dlq), s.db.swept, ids, now);
    }
  }

  lemma LaneOfReceipt(r: Receipt, events: seq<Event>, projected: set<(nat, nat)>)
    requires ReceiptOk(r, events, projected)
    ensures forall i :: 0 <= i < |r.events| ==> r.events[i] in events && LaneOf(r.events[i]) == LaneOfGroup(r.group)
  {
    forall i | 0 <= i < |r.events| ensures r.events[i] in events && LaneOf(r.events[i]) == LaneOfGroup(r.group) {
      assert r.events[i] in r.events;
    }
  }

  lemma SucceedInv(s: Sys, w: nat, now: int, rows: seq<Results.Row>)
    requires Inv(s)
    ensures Inv(Succeed(s, w, now, rows))
  {
    hide Finished, RowsFit, ScopeOf;
    if Current(s, w) && RowsFit(s.db, s.jobs[w].receipt, rows) {
      var id := s.jobs[w].receipt;
      var r := s.db.receipts[id];
      LaneOfReceipt(r, s.db.events, s.db.projected);
      FinishedAccounted(r);
      SucceedCursorKeeps(s, id, now, rows);
      SucceedKeeps(s, w, now, rows);
      ResolveKeepsDlq(s.db.dlq, s.db.projected, s.retries, LaneOfGroup(r.group), r.events, r.version, now);
      ReceiptTakes(s.db.events, s.db.receipts, s.jobs, s.db.projected, Handled(s.db.projected, s.db.dlq), s.db.swept, id, Finished(r));
    }
  }

  lemma FinishedAccounted(r: Receipt)
    ensures Finished(r).events == r.events && Accounted(Finished(r))
  {}

  lemma FailInv(s: Sys, w: nat, now: int)
    requires Inv(s)
    ensures Inv(Fail(s, w, now))
  {
    if Current(s, w) {
      var id := s.jobs[w].receipt;
      var r := s.db.receipts[id];
      FailKeeps(s, w, now);
      EnqueueKeepsDlq(s.db.dlq, s.db.projected, s.retries, LaneOfGroup(r.group), r.events, r.version, now);
      ReceiptTakes(s.db.events, s.db.receipts, s.jobs, s.db.projected, Handled(s.db.projected, s.db.dlq), s.db.swept, id, Aborted(r, now));
    }
  }

  lemma PageIds(s: Sys, lane: Lane)
    requires Inv(s) && lane in s.sweeps
    ensures s.sweeps[lane].page != [] && Ids(s.sweeps[lane].page) <= Ids(s.db.events)
  {}

  lemma ProjectedGrows(events: seq<Event>, receipts: map<nat, Receipt>, jobs: map<nat, Job>,
                       projected: set<(nat, nat)>, projected': set<(nat, nat)>)
    requires ReceiptsInv(events, receipts, jobs, projected) && projected <= projected'
    ensures ReceiptsInv(events, receipts, jobs, projected')
  {}

  lemma SweepOkInv(s: Sys, lane: Lane, now: int, rows: seq<Results.Row>)
    requires Inv(s)
    ensures Inv(SweepOk(s, lane, now, rows))
  {
    if lane in s.sweeps && Results.InScope(rows, ScopeOf(lane, s.sweeps[lane].page, s.sweeps[lane].version)) {
      var sw := s.sweeps[lane];
      PageIds(s, lane);
      SweepTablesKeeps(s, lane);
      ResolveKeepsDlq(s.db.dlq, s.db.projected, s.retries, lane, sw.page, sw.version, now);
      PageTakes(s.db.events, s.db.receipts, Handled(s.db.projected, s.db.dlq), s.db.swept, Ids(sw.page));
      ProjectedGrows(s.db.events, s.db.receipts, s.jobs, s.db.projected, s.db.projected + Pairs(sw.page, sw.version));
    }
  }

  lemma SweepFailInv(s: Sys, lane: Lane, now: int)
    requires Inv(s)
    ensures Inv(SweepFail(s, lane, now))
  {
    if lane in s.sweeps {
      var sw := s.sweeps[lane];
      PageIds(s, lane);
      SweepTablesKeeps(s, lane);
      EnqueueKeepsDlq(s.db.dlq, s.db.projected, s.retries, lane, sw.page, sw.version, now);
      PageTakes(s.db.events, s.db.receipts, Handled(s.db.projected, s.db.dlq), s.db.swept, Ids(sw.page));
    }
  }

  predicate SameHandover(r: Receipt, r': Receipt) {
    r'.events == r.events && (Accounted(r') <==> Accounted(r))
  }

  lemma ReceiptRowsInv(s: Sys, s': Sys)
    requires Inv(s)
    requires s' == s.(jobs := s'.jobs, db := s.db.(receipts := s'.db.receipts))
    requires ReceiptsInv(s.db.events, s'.db.receipts, s'.jobs, s.db.projected)
    requires s'.db.receipts.Keys == s.db.receipts.Keys
    requires forall r :: r in s.db.receipts ==> SameHandover(s.db.receipts[r], s'.db.receipts[r])
    ensures Inv(s')
  {}

  lemma WakeInv(s: Sys, ids: set<nat>, revive: bool, now: int)
    requires Inv(s)
    ensures Inv(Wake(s, ids, revive, now))
  {
    hide LogInv, CursorInv, ReceiptsInv, HandoverInv, DlqInv;
    WakeKeeps(s, ids, revive, now);
    ReceiptRowsInv(s, Wake(s, ids, revive, now));
  }

  lemma RecoverInv(s: Sys, now: int)
    requires Inv(s)
    ensures Inv(Recover(s, now))
  {
    hide LogInv, CursorInv, ReceiptsInv, HandoverInv, DlqInv;
    RecoverKeeps(s, now);
    ReceiptRowsInv(s, Recover(s, now));
  }

  lemma ClaimInv(s: Sys, w: nat, r: nat, now: int)
    requires Inv(s)
    ensures Inv(Claim(s, w, r, now))
  {
    hide LogInv, CursorInv, ReceiptsInv, HandoverInv, DlqInv;
    if w !in s.jobs && r in s.db.receipts && Claimable(s.db.receipts[r], now) {
      ClaimKeeps(s, w, r, now);
      ReceiptRowsInv(s, Claim(s, w, r, now));
    }
  }

  lemma HeartbeatInv(s: Sys, w: nat, now: int)
    requires Inv(s)
    ensures Inv(Heartbeat(s, w, now))
  {
    hide LogInv, CursorInv, ReceiptsInv, HandoverInv, DlqInv;
    if Current(s, w) {
      HeartbeatKeeps(s, w, now);
      ReceiptRowsInv(s, Heartbeat(s, w, now));
    }
  }

  lemma AcceptanceInv(s: Sys, txns: map<nat, Txn>)
    requires Inv(s) && LogInv(s.db.events, txns)
    ensures Inv(s.(txns := txns))
  {}

  lemma StageInv(s: Sys, t: nat, clock: int, id: nat)
    requires Inv(s)
    ensures Inv(Stage(s, t, clock, id))
  {
    StageKeeps(s, t, clock, id);
    var s' := Stage(s, t, clock, id);
    assert s' == s.(txns := s'.txns);
    AcceptanceInv(s, s'.txns);
  }

  lemma FenceInv(s: Sys, t: nat)
    requires Inv(s)
    ensures Inv(Fence(s, t))
  {
    FenceKeeps(s, t);
    AcceptanceInv(s, Fence(s, t).txns);
  }

  lemma BeginInv(s: Sys, t: nat, request: seq<Submission>, config: map<nat, nat>, fences: seq<Lane>)
    requires Inv(s)
    ensures Inv(Begin(s, t, request, config, fences))
  {
    BeginKeeps(s, t, request, config, fences);
    AcceptanceInv(s, Begin(s, t, request, config, fences).txns);
  }

  /** Stopping any party at any moment is harmless. */
  lemma StopInv(s: Sys, step: Step)
    requires Inv(s)
    requires step.RollbackStep? || step.WorkerStopsStep? || step.SweepStopsStep? || step.RetryStopsStep?
    ensures Inv(Next(s, step))
  {
    hide LogInv, CursorInv, ReceiptsInv, HandoverInv, DlqInv;
    match step
    case RollbackStep(t) => FewerTxns(s.db.events, s.txns, t);
    case WorkerStopsStep(w) => FewerJobs(s.db.events, s.db.receipts, s.jobs, s.db.projected, w);
    case SweepStopsStep(lane) => FewerSweeps(s.db.events, s.db.checkpoints, s.sweeps, s.db.swept, lane);
    case RetryStopsStep(o) => FewerRetries(s.db.dlq, s.db.projected, s.retries, o);
  }

  lemma FewerTxns(events: seq<Event>, txns: map<nat, Txn>, t: nat)
    requires LogInv(events, txns)
    ensures LogInv(events, txns - {t})
  {}

  lemma FewerJobs(events: seq<Event>, receipts: map<nat, Receipt>, jobs: map<nat, Job>, projected: set<(nat, nat)>, w: nat)
    requires ReceiptsInv(events, receipts, jobs, projected)
    ensures ReceiptsInv(events, receipts, jobs - {w}, projected)
  {}

  lemma FewerSweeps(events: seq<Event>, checkpoints: map<Lane, Stamp>, sweeps: map<Lane, Sweep>, swept: set<nat>, lane: Lane)
    requires CursorInv(events, checkpoints, sweeps, swept)
    ensures CursorInv(events, checkpoints, sweeps - {lane}, swept)
  {}

  lemma FewerRetries(dlq: Dlq.Table, projected: set<(nat, nat)>, retries: map<nat, Retry>, o: nat)
    requires DlqInv(dlq, projected, retries)
    ensures DlqInv(dlq, projected, retries - {o})
  {}

  lemma SweepStartInv(s: Sys, lane: Lane, version: nat, limit: int, page: seq<Event>)
    requires Inv(s)
    ensures Inv(SweepStart(s, lane, version, limit, page))
  {
    SweepStartKeeps(s, lane, version, limit, page);
  }

  lemma RetryTakeInv(s: Sys, o: nat, i: nat, now: int)
    requires Inv(s)
    ensures Inv(RetryTake(s, o, i, now))
  {
    if o !in s.retries && i < |s.db.dlq| && Dlq.CanTake(s.db.dlq[i], now) {
      RowUpdateKeepsDlq(s.db.dlq, s.db.projected, s.retries, i, Dlq.Taken(s.db.dlq[i], o, now));
    }
  }

  lemma FirstsSnoc(projected: set<(nat, nat)>, event: nat, version: nat)
    ensures Firsts(projected + {(event, version)}) == Firsts(projected) + {event}
  {}

  lemma RetriedEvent(s: Sys, o: nat)
    requires Inv(s) && o in s.retries
    ensures s.retries[o].key.event in Dlq.EventsOf(s.db.dlq)
  {
    assert RetryOk(s.db.dlq, s.db.projected, s.retries[o]);
  }

  lemma ProjectedKeepsHandled(s: Sys, o: nat)
    requires Inv(s) && o in s.retries
    ensures var key := s.retries[o].key;
            Handled(s.db.projected + {(key.event, key.version)}, s.db.dlq) == Handled(s.db.projected, s.db.dlq)
  {
    RetriedEvent(s, o);
    FirstsSnoc(s.db.projected, s.retries[o].key.event, s.retries[o].key.version);
    hide Inv, Firsts;
  }

  lemma ProjectedKeepsDlq(s: Sys, o: nat)
    requires DlqInv(s.db.dlq, s.db.projected, s.retries) && o in s.retries
    ensures var rt := s.retries[o];
            DlqInv(s.db.dlq, s.db.projected + {(rt.key.event, rt.key.version)}, s.retries[o := rt.(projected := true)])
  {
    var key := s.retries[o].key;
    GrowthKeepsRetries(s.db.dlq, s.db.dlq, s.db.projected, s.db.projected + {(key.event, key.version)}, s.retries);
  }

  lemma RetryProjectInv(s: Sys, o: nat, rows: seq<Results.Row>)
    requires Inv(s)
    ensures Inv(RetryProject(s, o, rows))
  {
    hide LogInv, CursorInv, ReceiptsInv, HandoverInv, DlqInv, Handled;
    var s' := RetryProject(s, o, rows);
    if s' != s {
      ProjectedKeepsHandled(s, o);
      ProjectedKeepsDlq(s, o);
      ProjectedGrows(s.db.events, s.db.receipts, s.jobs, s.db.projected, s'.db.projected);
    }
  }

  lemma RetryResolveInv(s: Sys, o: nat)
    requires Inv(s)
    ensures Inv(RetryResolve(s, o))
  {
    if HoldsRow(s, o) && s.retries[o].projected {
      assert RetryOk(s.db.dlq, s.db.projected, s.retries[o]);
      RowUpdateKeepsDlq(s.db.dlq, s.db.projected, s.retries, s.retries[o].row, Dlq.Closed(s.db.dlq[s.retries[o].row]));
    }
  }

  lemma RetryRescheduleInv(s: Sys, o: nat, now: int)
    requires Inv(s)
    ensures Inv(RetryReschedule(s, o, now))
  {
    if HoldsRow(s, o) {
      assert RetryOk(s.db.dlq, s.db.projected, s.retries[o]);
      var row := s.db.dlq[s.retries[o].row];
      assert RowOk(row, s.db.projected);
      RowUpdateKeepsDlq(s.db.dlq, s.db.projected, s.retries, s.retries[o].row, Dlq.Rescheduled(row, now, s.retries[o].attempts));
    }
  }

  lemma NextInv(s: Sys, step: Step)
    requires Inv(s)
    ensures Inv(Next(s, step))
  {
    hide Inv;
    match step
    case BeginStep(t, request, config, fences) => BeginInv(s, t, request, config, fences);
    case FenceStep(t) => FenceInv(s, t);
    case StageStep(t, clock, id) => StageInv(s, t, clock, id);
    case CommitStep(t, ids, now) => CommitInv(s, t, ids, now);
    case RollbackStep(t) => StopInv(s, step);
    case WakeStep(receipts, revive, now) => WakeInv(s, receipts, revive, now);
    case RecoverStep(now) => RecoverInv(s, now);
    case ClaimStep(w, r, now) => ClaimInv(s, w, r, now);
    case HeartbeatStep(w, now) => HeartbeatInv(s, w, now);
    case SucceedStep(w, now, rows) => SucceedInv(s, w, now, rows);
    case FailStep(w, now) => FailInv(s, w, now);
    case WorkerStopsStep(w) => StopInv(s, step);
    case SweepStartStep(lane, version, limit, page) => SweepStartInv(s, lane, version, limit, page);
    case SweepOkStep(lane, now, rows) => SweepOkInv(s, lane, now, rows);
    case SweepFailStep(lane, now) => SweepFailInv(s, lane, now);
    case SweepStopsStep(lane) => StopInv(s, step);
    case RetryTakeStep(o, row, now) => RetryTakeInv(s, o, row, now);
    case RetryProjectStep(o, rows) => RetryProjectInv(s, o, rows);
    case RetryResolveStep(o) => RetryResolveInv(s, o);
    case RetryRescheduleStep(o, now) => RetryRescheduleInv(s, o, now);
    case RetryStopsStep(o) => StopInv(s, step);
  }

  lemma {:induction false} RunInv(s: Sys, steps: seq<Step>)
    requires Inv(s)
    ensures Inv(Run(s, steps))
    decreases |steps|
  {
    if steps != [] {
      RunInv(s, steps[..|steps| - 1]);
      NextInv(Run(s, steps[..|steps| - 1]), steps[|steps| - 1]);
    }
  }

  /** Every reachable state satisfies the invariants. */
  lemma ReachableInv(steps: seq<Step>)
    ensures Inv(Run(Empty, steps))
  {
    StartInv();
    RunInv(Empty, steps);
  }
}
