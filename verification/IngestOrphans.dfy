/**
 * A receipt whose last attempt ends by lease expiry fails without a dead-letter row. What follows says exactly which
 * accepted events nobody but their client can save any more, and exactly which crash of a worker makes them so.
 */
module IngestOrphans {
  import opened Prelude
  import Dlq = ProjectionDlq
  import opened IngestPlane
  import opened IngestLog
  import opened IngestCursor
  import opened IngestReceipts
  import opened IngestHandover
  import opened IngestRuns
  import opened IngestSteps
  import opened IngestTheorems

  ghost predicate InOpenPage(s: Sys, e: Event) {
    LaneOf(e) in s.sweeps && e in s.sweeps[LaneOf(e)].page
  }

  lemma SharedEvent(s: Sys, r: nat, e: Event)
    requires Inv(s) && r in s.db.receipts && e in s.db.receipts[r].events
    ensures e in s.db.events && e.id in Ids(s.db.receipts[r].events)
    ensures IsHandled(s, e) <==> e.id in s.db.swept || Accounted(s.db.receipts[r])
  {}

  // ---- Behind the watermark: lost for good --------------------------------------------------

  /** Nobody but its client can make receipt r claimable again: it failed, or nobody works on its last attempt. */
  ghost predicate Doomed(s: Sys, r: nat)
    requires r in s.db.receipts
  {
    || s.db.receipts[r].status.Failed?
    || (s.db.receipts[r].status.Running? && s.db.receipts[r].attempts == MAX_ATTEMPTS && NoHolder(s, r))
  }

  ghost predicate NoHolder(s: Sys, r: nat) { forall w :: Current(s, w) ==> s.jobs[w].receipt != r }

  /** Nobody has taken e, the watermark has passed it, no open page holds it, and its receipt is doomed. */
  ghost predicate Orphan(s: Sys, r: nat, e: Event) {
    && r in s.db.receipts && e in s.db.receipts[r].events && !IsHandled(s, e)
    && Behind(s, e) && !InOpenPage(s, e) && Doomed(s, r)
  }

  lemma PageMissesId(s: Sys, lane: Lane, e: Event)
    requires Inv(s) && lane in s.sweeps && e in s.db.events && e !in s.sweeps[lane].page
    ensures e.id !in Ids(s.sweeps[lane].page)
  {
    var page := s.sweeps[lane].page;
    assert SweepOkay(s.db.events, s.db.checkpoints, s.db.swept, lane, s.sweeps[lane]);
    forall i | 0 <= i < |page| ensures page[i].id != e.id {
      assert page[i] in s.db.events;
      var a :| 0 <= a < |s.db.events| && s.db.events[a] == page[i];
      var b :| 0 <= b < |s.db.events| && s.db.events[b] == e;
    }
  }

  lemma OtherLanePage(s: Sys, lane: Lane, e: Event)
    requires Inv(s) && lane in s.sweeps && lane != LaneOf(e)
    ensures e !in s.sweeps[lane].page
  {}

  /** Only a committed page enlarges the swept set, and only by its own events. */
  lemma OrphanNotSwept(s: Sys, step: Step, e: Event)
    requires Inv(s) && e in s.db.events && e.id !in s.db.swept && !InOpenPage(s, e)
    ensures e.id !in Next(s, step).db.swept
  {
    hide Inv;
    match step
    case SweepOkStep(lane, now, rows) =>
      if lane in s.sweeps { PageMisses(s, lane, e); }
    case SweepFailStep(lane, now) =>
      if lane in s.sweeps { PageMisses(s, lane, e); }
    case _ =>
  }

  lemma PageMisses(s: Sys, lane: Lane, e: Event)
    requires Inv(s) && lane in s.sweeps && e in s.db.events && !InOpenPage(s, e)
    ensures e.id !in Ids(s.sweeps[lane].page)
  {
    hide Inv;
    if lane != LaneOf(e) { OtherLanePage(s, lane, e); }
    PageMissesId(s, lane, e);
  }

  lemma StartMisses(s: Sys, lane: Lane, version: nat, limit: int, page: seq<Event>, e: Event)
    requires Behind(s, e) && !InOpenPage(s, e)
    ensures !InOpenPage(SweepStart(s, lane, version, limit, page), e)
  {
    if e in page && lane == LaneOf(e) {
      assert !After(Cursor(s.db.checkpoints, lane), e);
    }
  }

  /** A page is opened by a sweep only. */
  lemma PagesStay(s: Sys, step: Step, lane: Lane)
    requires !step.SweepStartStep? && lane in Next(s, step).sweeps
    ensures lane in s.sweeps && Next(s, step).sweeps[lane] == s.sweeps[lane]
  {
    hide Begin, Fence, Stage, SweepStart, SuccessTables, FailureTables, SweepTables, Oversize, RowsFit;
    if Drafts(step) { DraftsLeaveTables(s, step); }
  }

  lemma OrphanNotPaged(s: Sys, step: Step, e: Event)
    requires Behind(s, e) && !InOpenPage(s, e)
    ensures !InOpenPage(Next(s, step), e)
  {
    if step.SweepStartStep? {
      StartMisses(s, step.lane, step.version, step.limit, step.page, e);
    } else {
      hide Next;
      if LaneOf(e) in Next(s, step).sweeps { PagesStay(s, step, LaneOf(e)); }
    }
  }

  /** Only a claim of r starts a job on r. */
  predicate SameJobsOn(s: Sys, s': Sys, r: nat) {
    forall w :: w in s'.jobs && s'.jobs[w].receipt == r ==> w in s.jobs && s.jobs[w] == s'.jobs[w]
  }

  lemma JobsStay(s: Sys, step: Step, r: nat)
    requires r in s.db.receipts && s.db.receipts[r].status.Running?
    ensures SameJobsOn(s, Next(s, step), r)
  {
    hide SuccessTables, FailureTables, RowsFit;
    if LeavesJobs(step) {
      hide Next;
      JobsUntouched(s, step);
    }
  }

  /** A running row that nobody holds is left alone, or recovered. */
  lemma UnheldRowMoves(s: Sys, step: Step, r: nat)
    requires r in s.db.receipts && s.db.receipts[r].status.Running? && NoHolder(s, r)
    ensures var db := Next(s, step).db;
            r in db.receipts && (db.receipts[r] == s.db.receipts[r]
                                 || (step.RecoverStep? && db.receipts[r] == Recovered(s.db.receipts[r], step.now)))
  {
    if LeavesReceipts(step) {
      ReceiptsStay(s, step);
    } else {
      hide Aborted, Finished, Claimed, Recovered, Commit;
      match step
      case CommitStep(t, ids, now) => CommitMoves(s, t, ids, now);
      case _ =>
    }
  }

  lemma StillUnheld(s: Sys, s': Sys, r: nat)
    requires r in s.db.receipts && r in s'.db.receipts && s'.db.receipts[r] == s.db.receipts[r]
    requires NoHolder(s, r) && SameJobsOn(s, s', r)
    ensures NoHolder(s', r)
  {}

  lemma DoomedStays(s: Sys, step: Step, r: nat)
    requires r in s.db.receipts && s.db.receipts[r].maxAttempts == MAX_ATTEMPTS && Doomed(s, r) && !Revives(step, r)
    ensures var s' := Next(s, step);
            r in s'.db.receipts && Doomed(s', r) && s'.db.receipts[r].failures == s.db.receipts[r].failures
  {
    hide Next;
    if s.db.receipts[r].status.Failed? {
      FailedMovesOnlyByRevival(s, step, r);
    } else {
      UnheldRowMoves(s, step, r);
      if Next(s, step).db.receipts[r] == s.db.receipts[r] {
        JobsStay(s, step, r);
        StillUnheld(s, Next(s, step), r);
      }
    }
  }

  lemma ReceiptShape(s: Sys, r: nat)
    requires Inv(s) && r in s.db.receipts
    ensures ReceiptOk(s.db.receipts[r], s.db.events, s.db.projected)
  {}

  lemma OrphanStays(s: Sys, r: nat, e: Event, step: Step)
    requires Inv(s) && Orphan(s, r, e) && !Revives(step, r)
    ensures Inv(Next(s, step)) && Orphan(Next(s, step), r, e)
  {
    hide Inv, Next;
    SharedEvent(s, r, e);
    ReceiptShape(s, r);
    DoomedStays(s, step, r);
    ReceiptsMove(s, step);
    OrphanNotSwept(s, step, e);
    OrphanNotPaged(s, step, e);
    TablesGrow(s, step);
    NextInv(s, step);
    SharedEvent(Next(s, step), r, e);
  }

  /** No step revives receipt r. */
  predicate NoRevival(steps: seq<Step>, r: nat)
    decreases |steps|
  {
    steps == [] || (NoRevival(steps[..|steps| - 1], r) && !Revives(steps[|steps| - 1], r))
  }

  lemma {:induction false} NoRevivalCons(step: Step, rest: seq<Step>, r: nat)
    requires !Revives(step, r) && NoRevival(rest, r)
    ensures NoRevival([step] + rest, r)
    decreases |rest|
  {
    var all := [step] + rest;
    if rest == [] {
      assert all[..0] == [];
    } else {
      NoRevivalCons(step, rest[..|rest| - 1], r);
      assert all[..|all| - 1] == [step] + rest[..|rest| - 1];
    }
  }

  /** Without a client retry of its receipt no modelled step of anyone ever takes an orphan, whatever the clocks read. */
  lemma {:induction false} OrphanForever(s: Sys, r: nat, e: Event, steps: seq<Step>)
    requires Inv(s) && Orphan(s, r, e) && NoRevival(steps, r)
    ensures Inv(Run(s, steps)) && Orphan(Run(s, steps), r, e)
    decreases |steps|
  {
    if steps != [] {
      OrphanForever(s, r, e, steps[..|steps| - 1]);
      OrphanStays(Run(s, steps[..|steps| - 1]), r, e, steps[|steps| - 1]);
    }
  }

  // ---- Ahead of the watermark, or in an open page: the projector can still take it ----------

  /** Can some continuation without a client retry of receipt r get e projected or dead-lettered? */
  ghost predicate Rescuable(s: Sys, r: nat, e: Event) {
    exists steps :: NoRevival(steps, r) && IsHandled(Run(s, steps), e)
  }

  lemma RescuedAfter(s: Sys, r: nat, e: Event, step: Step)
    requires !Revives(step, r) && Rescuable(Next(s, step), r, e)
    ensures Rescuable(s, r, e)
  {
    var rest :| NoRevival(rest, r) && IsHandled(Run(Next(s, step), rest), e);
    RunNothing(s);
    RunSnoc(s, [], step);
    assert [] + [step] == [step];
    RunConcat(s, [step], rest);
    NoRevivalCons(step, rest, r);
  }

  lemma RescuedNow(s: Sys, r: nat, e: Event)
    requires IsHandled(s, e)
    ensures Rescuable(s, r, e)
  {
    RunNothing(s);
    assert NoRevival([], r);
  }

  /** An open page that holds e takes it by committing, whichever way it ends. */
  lemma OpenPageTakes(s: Sys, r: nat, e: Event, now: int)
    requires Inv(s) && r in s.db.receipts && e in s.db.receipts[r].events && InOpenPage(s, e)
    ensures IsHandled(SweepFail(s, LaneOf(e), now), e)
  {
    SharedEvent(s, r, e);
    PageIds(s, LaneOf(e));
    OwnId(s.sweeps[LaneOf(e)].page, e);
    SweepFailInv(s, LaneOf(e), now);
    SharedEvent(SweepFail(s, LaneOf(e), now), r, e);
  }

  /** Stopping a page leaves the cursor where it is, so what was ahead stays ahead. */
  predicate LaneIdle(s: Sys, lane: Lane) {
    lane !in s.sweeps && forall u :: u in s.txns ==> lane !in Held(s.txns[u])
  }

  predicate FirstAt(events: seq<Event>, lane: Lane, from: Option<Stamp>, i: nat) {
    && i < |events| && LaneOf(events[i]) == lane && After(from, events[i])
    && forall j :: 0 <= j < i && LaneOf(events[j]) == lane ==> !After(from, events[j])
  }

  lemma {:induction false} FindFirst(events: seq<Event>, lane: Lane, from: Option<Stamp>, k: nat) returns (i: nat)
    requires k < |events| && LaneOf(events[k]) == lane && After(from, events[k])
    ensures i <= k && FirstAt(events, lane, from, i)
    decreases k
  {
    i := k;
    if j :| 0 <= j < k && LaneOf(events[j]) == lane && After(from, events[j]) {
      i := FindFirst(events, lane, from, j);
    }
  }

  lemma FirstIsPage(events: seq<Event>, lane: Lane, from: Option<Stamp>, i: nat)
    requires Good(events) && FirstAt(events, lane, from, i)
    ensures IsPage(events, lane, from, 1, [events[i]])
  {}

  ghost predicate NoneBelow(s: Sys, lane: Lane, low: nat) {
    forall j :: 0 <= j < low && j < |s.db.events| && LaneOf(s.db.events[j]) == lane ==>
      !After(Cursor(s.db.checkpoints, lane), s.db.events[j])
  }

  ghost function OnePage(s: Sys, lane: Lane, i: nat): Sys
    requires i < |s.db.events|
  {
    s.(sweeps := s.sweeps[lane := Sweep(Cursor(s.db.checkpoints, lane), 1, [s.db.events[i]])])
  }

  lemma StartPage(s: Sys, lane: Lane, i: nat)
    requires Good(s.db.events) && LaneIdle(s, lane) && FirstAt(s.db.events, lane, Cursor(s.db.checkpoints, lane), i)
    ensures SweepStart(s, lane, 1, 1, [s.db.events[i]]) == OnePage(s, lane, i)
  {
    FirstIsPage(s.db.events, lane, Cursor(s.db.checkpoints, lane), i);
    hide IsPage, Good, FirstAt, Cursor;
  }

  lemma GoodLog(s: Sys)
    requires Inv(s)
    ensures Good(s.db.events)
  {}

  lemma StartOne(s: Sys, lane: Lane, i: nat)
    requires Inv(s) && LaneIdle(s, lane) && FirstAt(s.db.events, lane, Cursor(s.db.checkpoints, lane), i)
    ensures Next(s, SweepStartStep(lane, 1, 1, [s.db.events[i]])) == OnePage(s, lane, i)
    ensures Inv(OnePage(s, lane, i))
  {
    GoodLog(s);
    StartPage(s, lane, i);
    hide Inv, SweepStart, LaneIdle, FirstAt, Good;
    SweepStartInv(s, lane, 1, 1, [s.db.events[i]]);
  }

  /** Failing the one-event page moves the cursor onto its event and nothing else that matters. */
  lemma EndOne(s: Sys, lane: Lane, i: nat)
    requires Good(s.db.events) && LaneIdle(s, lane)
    requires FirstAt(s.db.events, lane, Cursor(s.db.checkpoints, lane), i)
    ensures var s2 := SweepFail(OnePage(s, lane, i), lane, 0);
            && s2.db.events == s.db.events && s2.db.receipts == s.db.receipts
            && LaneIdle(s2, lane) && Cursor(s2.db.checkpoints, lane) == Some(StampOf(s.db.events[i]))
            && NoneBelow(s2, lane, i + 1)
  {}

  /** One-event pages walk the lane until they reach e. */
  lemma {:induction false} WalkTo(s: Sys, r: nat, e: Event, k: nat, low: nat)
    requires Inv(s) && r in s.db.receipts && e in s.db.receipts[r].events
    requires k < |s.db.events| && s.db.events[k] == e && LaneIdle(s, LaneOf(e))
    requires After(Cursor(s.db.checkpoints, LaneOf(e)), e)
    requires low <= k && NoneBelow(s, LaneOf(e), low)
    ensures Rescuable(s, r, e)
    decreases k - low
  {
    hide Inv;
    var lane := LaneOf(e);
    var i := FindFirst(s.db.events, lane, Cursor(s.db.checkpoints, lane), k);
    StartOne(s, lane, i);
    var s1 := OnePage(s, lane, i);
    var s2 := SweepFail(s1, lane, 0);
    if i == k {
      OpenPageTakes(s1, r, e, 0);
      RescuedNow(s2, r, e);
    } else {
      LaterInLog(s, i, k);
      SweepFailInv(s1, lane, 0);
      EndOne(s, lane, i);
      WalkTo(s2, r, e, k, i + 1);
    }
    RescuedAfter(s1, r, e, SweepFailStep(lane, 0));
    RescuedAfter(s, r, e, SweepStartStep(lane, 1, 1, [s.db.events[i]]));
  }

  lemma LaterInLog(s: Sys, i: nat, k: nat)
    requires Inv(s) && i < k < |s.db.events| && LaneOf(s.db.events[i]) == LaneOf(s.db.events[k])
    ensures Good(s.db.events) && Before(StampOf(s.db.events[i]), StampOf(s.db.events[k]))
  {}

  lemma RollbackIsStep(s: Sys, u: nat)
    ensures Next(s, RollbackStep(u)) == Rollback(s, u)
  {}

  lemma FenceHolder(s: Sys, r: nat, e: Event)
    requires Inv(s) && r in s.db.receipts && e in s.db.receipts[r].events
    requires LaneOf(e) !in s.sweeps && After(Cursor(s.db.checkpoints, LaneOf(e)), e)
    ensures Rescuable(s, r, e)
  {
    SharedEvent(s, r, e);
    var k :| 0 <= k < |s.db.events| && s.db.events[k] == e;
    hide Rescuable, Next;
    if u :| u in s.txns && LaneOf(e) in Held(s.txns[u]) {
      var s1 := Rollback(s, u);
      RollbackIsStep(s, u);
      forall v | v in s1.txns ensures LaneOf(e) !in Held(s1.txns[v]) {
        assert Separate(s.txns[u], s.txns[v]);
      }
      NextInv(s, RollbackStep(u));
      WalkTo(s1, r, e, k, 0);
      RescuedAfter(s, r, e, RollbackStep(u));
    } else {
      WalkTo(s, r, e, k, 0);
    }
  }

  lemma RescuedFromPage(s: Sys, r: nat, e: Event)
    requires Inv(s) && r in s.db.receipts && e in s.db.receipts[r].events && InOpenPage(s, e)
    ensures Rescuable(s, r, e)
  {
    hide Inv;
    OpenPageTakes(s, r, e, 0);
    RescuedNow(SweepFail(s, LaneOf(e), 0), r, e);
    RescuedAfter(s, r, e, SweepFailStep(LaneOf(e), 0));
  }

  lemma RescuedAhead(s: Sys, r: nat, e: Event)
    requires Inv(s) && r in s.db.receipts && e in s.db.receipts[r].events && !Behind(s, e)
    ensures Rescuable(s, r, e)
  {
    hide Inv;
    var s1 := SweepStops(s, LaneOf(e));
    StopInv(s, SweepStopsStep(LaneOf(e)));
    SharedEvent(s, r, e);
    AheadIsAfter(s, e);
    FenceHolder(s1, r, e);
    RescuedAfter(s, r, e, SweepStopsStep(LaneOf(e)));
  }

  /** The tuple order is total, so an event that is not behind the checkpoint lies after it. */
  lemma AheadIsAfter(s: Sys, e: Event)
    requires !Behind(s, e)
    ensures After(Cursor(s.db.checkpoints, LaneOf(e)), e)
  {}

  // ---- Not doomed: a worker can still take it ------------------------------------------------

  lemma UnusedWorker(jobs: map<nat, Job>) returns (w: nat)
    ensures w !in jobs
  {
    w := AboveAll(jobs.Keys);
  }

  lemma {:induction false} AboveAll(xs: set<nat>) returns (n: nat)
    ensures forall x :: x in xs ==> x < n
    decreases |xs|
  {
    if xs == {} { return 0; }
    var x :| x in xs;
    var rest := AboveAll(xs - {x});
    n := Max(rest, x + 1);
    forall y | y in xs ensures y < n {
      assert y == x || y in xs - {x};
    }
  }

  lemma RescuedByHolder(s: Sys, w: nat, e: Event)
    requires Inv(s) && Current(s, w) && e in s.db.receipts[s.jobs[w].receipt].events
    ensures Rescuable(s, s.jobs[w].receipt, e)
  {
    hide Inv;
    var r := s.jobs[w].receipt;
    FailInv(s, w, 0);
    SharedEvent(Fail(s, w, 0), r, e);
    RescuedNow(Fail(s, w, 0), r, e);
    RescuedAfter(s, r, e, FailStep(w, 0));
  }

  lemma RescuedByClaim(s: Sys, r: nat, e: Event)
    requires Inv(s) && r in s.db.receipts && e in s.db.receipts[r].events
    requires s.db.receipts[r].status.Queued? || s.db.receipts[r].status.RetryScheduled?
    ensures Rescuable(s, r, e)
  {
    hide Inv;
    var now := s.db.receipts[r].nextAttemptAt;
    var w := UnusedWorker(s.jobs);
    ReceiptShape(s, r);
    ClaimInv(s, w, r, now);
    RescuedByHolder(Claim(s, w, r, now), w, e);
    RescuedAfter(s, r, e, ClaimStep(w, r, now));
  }

  lemma RescuedByRecovery(s: Sys, r: nat, e: Event)
    requires Inv(s) && r in s.db.receipts && e in s.db.receipts[r].events
    requires s.db.receipts[r].status.Running? && s.db.receipts[r].attempts < MAX_ATTEMPTS
    ensures Rescuable(s, r, e)
  {
    hide Inv;
    ReceiptShape(s, r);
    var now := s.db.receipts[r].leaseExpiresAt.value;
    RecoverInv(s, now);
    RescuedByClaim(Recover(s, now), r, e);
    RescuedAfter(s, r, e, RecoverStep(now));
  }

  lemma RescuedByWorker(s: Sys, r: nat, e: Event)
    requires Inv(s) && r in s.db.receipts && e in s.db.receipts[r].events && !Doomed(s, r)
    ensures Rescuable(s, r, e)
  {
    hide Inv, Rescuable;
    ReceiptShape(s, r);
    SharedEvent(s, r, e);
    match s.db.receipts[r].status
    case Completed => RescuedNow(s, r, e);
    case Running =>
      if !NoHolder(s, r) {
        var w :| Current(s, w) && s.jobs[w].receipt == r;
        RescuedByHolder(s, w, e);
      } else {
        RescuedByRecovery(s, r, e);
      }
    case _ => RescuedByClaim(s, r, e);
  }

  // ---- The exact condition ------------------------------------------------------------------

  lemma NotRescued(s: Sys, r: nat, e: Event)
    requires Inv(s) && Orphan(s, r, e)
    ensures !Rescuable(s, r, e)
  {
    forall steps | NoRevival(steps, r) ensures !IsHandled(Run(s, steps), e) {
      OrphanForever(s, r, e, steps);
    }
  }

  /**
   * In every reachable state an accepted event can still be projected or dead-lettered without its client,
   * unless nobody has taken it, the watermark has passed it outside any open page, and its receipt has failed
   * or lost the worker of its last attempt.
   */
  lemma RescuableIffNotOrphan(steps: seq<Step>, r: nat, e: Event)
    requires var s := Run(Empty, steps); r in s.db.receipts && e in s.db.receipts[r].events
    ensures var s := Run(Empty, steps); Rescuable(s, r, e) <==> !Orphan(s, r, e)
  {
    hide Inv, Rescuable, Doomed;
    ReachableInv(steps);
    var s := Run(Empty, steps);
    if Orphan(s, r, e) {
      NotRescued(s, r, e);
    } else if IsHandled(s, e) {
      RescuedNow(s, r, e);
    } else if InOpenPage(s, e) {
      RescuedFromPage(s, r, e);
    } else if !Behind(s, e) {
      RescuedAhead(s, r, e);
    } else {
      RescuedByWorker(s, r, e);
    }
  }

  lemma StoppedIsUnheld(s: Sys, w: nat)
    requires Current(s, w)
    ensures NoHolder(WorkerStops(s, w), s.jobs[w].receipt)
  {}

  /** Exactly which crash of a worker orphans an event: one on the last attempt, with the watermark past an untaken event. */
  lemma CrashOrphansExactly(steps: seq<Step>, w: nat, e: Event)
    requires var s := Run(Empty, steps); Current(s, w) && e in s.db.receipts[s.jobs[w].receipt].events
    ensures var s := Run(Empty, steps);
            var r := s.jobs[w].receipt;
            && Rescuable(s, r, e)
            && (!Rescuable(WorkerStops(s, w), r, e) <==>
                  s.db.receipts[r].attempts == MAX_ATTEMPTS && !IsHandled(s, e) && Behind(s, e) && !InOpenPage(s, e))
  {
    hide Inv, Rescuable;
    ReachableInv(steps);
    var s := Run(Empty, steps);
    var r := s.jobs[w].receipt;
    RescuedByHolder(s, w, e);
    StoppedIsUnheld(s, w);
    RunSnoc(Empty, steps, WorkerStopsStep(w));
    var s' := WorkerStops(s, w);
    assert Run(Empty, steps + [WorkerStopsStep(w)]) == s';
    RescuableIffNotOrphan(steps + [WorkerStopsStep(w)], r, e);
    assert IsHandled(s', e) == IsHandled(s, e) && Behind(s', e) == Behind(s, e) && InOpenPage(s', e) == InOpenPage(s, e);
    assert Doomed(s', r) <==> s.db.receipts[r].attempts == MAX_ATTEMPTS;
  }
}
