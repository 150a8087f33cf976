/**
 * The watermark leaves no gap: over any run each event at or behind its lane's checkpoint was in a committed
 * projector page, or is no later than the newest event of a completed receipt of that lane.
 */
module IngestCoverage {
  import opened Prelude
  import opened IngestPlane
  import opened IngestLog
  import opened IngestCursor
  import opened IngestReceipts
  import opened IngestRuns
  import opened IngestSteps
  import opened IngestTheorems

  /** Receipt r completed, so its transaction moved the checkpoint at least to e. */
  predicate Passed(db: Db, r: nat, e: Event) {
    && r in db.receipts && db.receipts[r].status.Completed? && LaneOfGroup(db.receipts[r].group) == LaneOf(e)
    && db.receipts[r].events != [] && NotAfter(StampOf(e), Latest(db.receipts[r].events))
  }

  ghost predicate Covered(db: Db, e: Event) { e.id in db.swept || exists r :: Passed(db, r, e) }

  ghost predicate NoGap(s: Sys) {
    forall e :: e in s.db.events && Behind(s, e) ==> Covered(s.db, e)
  }

  /** Completed rows stay as they are and nothing swept is forgotten, so what is covered stays covered. */
  lemma CoveredStays(s: Sys, step: Step, e: Event)
    requires Covered(s.db, e)
    ensures Covered(Next(s, step).db, e)
  {
    hide Next;
    TablesGrow(s, step);
    ReceiptsMove(s, step);
    if r :| Passed(s.db, r, e) { assert Passed(Next(s, step).db, r, e); }
  }

  /** The steps that move no checkpoint and add no event. */
  predicate LeavesCursor(step: Step) {
    !step.CommitStep? && !step.SucceedStep? && !step.SweepOkStep? && !step.SweepFailStep?
  }

  lemma CursorStays(s: Sys, step: Step)
    requires LeavesCursor(step)
    ensures Next(s, step).db.events == s.db.events && Next(s, step).db.checkpoints == s.db.checkpoints
  {
    if LeavesHistory(step) {
      hide Next;
      HistoryStays(s, step);
    }
  }

  /** What is behind the cursor after a page was behind it before, or is in the page. */
  lemma PageReaches(s: Sys, lane: Lane, e: Event)
    requires Inv(s) && lane in s.sweeps && e in s.db.events && LaneOf(e) == lane
    requires NotAfter(StampOf(e), StampOf(s.sweeps[lane].page[|s.sweeps[lane].page| - 1]))
    ensures Behind(s, e) || e in s.sweeps[lane].page
  {
    var sw := s.sweeps[lane];
    assert SweepOkay(s.db.events, s.db.checkpoints, s.db.swept, lane, sw);
    if !Behind(s, e) && sw.from.Some? && !Before(sw.from.value, StampOf(e)) {
      BeforeLast(StampOf(e), sw.from.value, s.db.checkpoints[lane]);
    }
  }

  lemma PageGoesOn(s: Sys, lane: Lane, e: Event)
    requires Inv(s) && lane in s.sweeps && e in s.db.events
    requires var c := SweepTables(s.db, lane, s.sweeps[lane].page).checkpoints;
             LaneOf(e) in c && NotAfter(StampOf(e), c[LaneOf(e)])
    ensures Behind(s, e) || e.id in Ids(s.sweeps[lane].page)
  {
    hide Inv;
    if !Behind(s, e) { PageReaches(s, lane, e); }
  }

  lemma PageHasEnd(s: Sys, lane: Lane)
    requires Inv(s) && lane in s.sweeps
    ensures s.sweeps[lane].page != []
  {
    PageIds(s, lane);
  }

  lemma SweepCovers(s: Sys, step: Step, e: Event)
    requires Inv(s) && (step.SweepOkStep? || step.SweepFailStep?)
    requires e in Next(s, step).db.events && Behind(Next(s, step), e)
    ensures e in s.db.events && (Behind(s, e) || Covered(Next(s, step).db, e))
  {
    hide Inv;
    if step.lane in s.sweeps {
      PageHasEnd(s, step.lane);
      if !Behind(s, e) { PageGoesOn(s, step.lane, e); }
    }
  }

  lemma SucceededRow(s: Sys, w: nat)
    requires Inv(s) && Current(s, w)
    ensures s.db.receipts[s.jobs[w].receipt].events != []
  {
    assert ReceiptOk(s.db.receipts[s.jobs[w].receipt], s.db.events, s.db.projected);
  }

  lemma SuccessCovers(s: Sys, w: nat, now: int, rows: seq<Results.Row>, e: Event)
    requires Inv(s) && e in s.db.events && Behind(Succeed(s, w, now, rows), e)
    ensures Behind(s, e) || Covered(Succeed(s, w, now, rows).db, e)
  {
    hide Inv, RowsFit, ScopeOf, Pairs, DlqKeys, KeySet;
    var s' := Succeed(s, w, now, rows);
    if s' != s && !Behind(s, e) {
      SucceededRow(s, w);
      assert Passed(s'.db, s.jobs[w].receipt, e);
    }
  }

  lemma CommitAddsAhead(s: Sys, t: nat, ids: seq<nat>, now: int, e: Event)
    requires Inv(s) && e in Commit(s, t, ids, now).db.events && Behind(Commit(s, t, ids, now), e)
    ensures e in s.db.events && Behind(s, e)
  {
    if e !in s.db.events { CommittedIsAhead(s, t, ids, now, e); }
    hide Inv;
  }

  lemma NextNoGap(s: Sys, step: Step)
    requires Inv(s) && NoGap(s)
    ensures NoGap(Next(s, step))
  {
    hide Inv, Covered;
    var s' := Next(s, step);
    forall e | e in s'.db.events && Behind(s', e) ensures Covered(s'.db, e) {
      NewlyBehind(s, step, e);
      if Behind(s, e) { CoveredStays(s, step, e); }
    }
  }

  lemma NewlyBehind(s: Sys, step: Step, e: Event)
    requires Inv(s) && e in Next(s, step).db.events && Behind(Next(s, step), e)
    ensures e in s.db.events && (Behind(s, e) || Covered(Next(s, step).db, e))
  {
    hide Inv, Covered, Begin, Fence, Stage, Commit, Wake, Recover, Claim, Heartbeat, Succeed, Fail;
    hide SweepStart, SweepOk, SweepFail, RetryTake, RetryProject, RetryResolve, RetryReschedule;
    match step
    case CommitStep(t, ids, now) => CommitAddsAhead(s, t, ids, now, e);
    case SucceedStep(w, now, rows) =>
      SuccessKeepsEvents(s, w, now, rows);
      SuccessCovers(s, w, now, rows, e);
    case SweepOkStep(_, _, _) => SweepCovers(s, step, e);
    case SweepFailStep(_, _) => SweepCovers(s, step, e);
    case _ => CursorStays(s, step);
  }

  lemma SuccessKeepsEvents(s: Sys, w: nat, now: int, rows: seq<Results.Row>)
    ensures Succeed(s, w, now, rows).db.events == s.db.events
  {}

  lemma {:induction false} RunNoGap(steps: seq<Step>)
    ensures NoGap(Run(Empty, steps))
    decreases |steps|
  {
    hide Inv, Next;
    if steps != [] {
      var n := |steps| - 1;
      RunNoGap(steps[..n]);
      ReachableInv(steps[..n]);
      NextNoGap(Run(Empty, steps[..n]), steps[n]);
    }
  }

  /** No event is ever passed over: whatever is at or behind its lane's checkpoint is covered. */
  lemma CoverageHasNoGap(steps: seq<Step>, e: Event)
    requires e in Run(Empty, steps).db.events && Behind(Run(Empty, steps), e)
    ensures var db := Run(Empty, steps).db; e.id in db.swept || exists r :: Passed(db, r, e)
  {
    RunNoGap(steps);
  }

  lemma SweptIsBehind(s: Sys, e: Event)
    requires Inv(s) && e in s.db.events && e.id in s.db.swept
    ensures Behind(s, e)
  {}

  /** In a lane that only the projector serves, the swept events are exactly those up to the checkpoint. */
  lemma ProjectorSweepsExactly(steps: seq<Step>, e: Event)
    requires e in Run(Empty, steps).db.events
    requires forall r :: r in Run(Empty, steps).db.receipts && LaneOfGroup(Run(Empty, steps).db.receipts[r].group) == LaneOf(e) ==>
               !Run(Empty, steps).db.receipts[r].status.Completed?
    ensures e.id in Run(Empty, steps).db.swept <==> Behind(Run(Empty, steps), e)
  {
    ReachableInv(steps);
    if Behind(Run(Empty, steps), e) {
      CoverageHasNoGap(steps, e);
    } else if e.id in Run(Empty, steps).db.swept {
      SweptIsBehind(Run(Empty, steps), e);
    }
  }

  /**
   * At the moment a page commits it is still exactly the lane's next range, none of it was swept before, and
   * every event of the lane up to its end is in it or was covered already.
   */
  lemma PagesAreGapFreeAndDisjoint(steps: seq<Step>, lane: Lane)
    requires lane in Run(Empty, steps).sweeps
    ensures var s := Run(Empty, steps); var sw := s.sweeps[lane];
            && IsRange(s.db.events, lane, sw.from, sw.page) && Ids(sw.page) !! s.db.swept
            && (forall e :: e in sw.page ==> e.tenant == lane.tenant && e.payload.workflow == lane.workflow)
            && (forall e :: e in s.db.events && LaneOf(e) == lane && NotAfter(StampOf(e), StampOf(sw.page[|sw.page| - 1])) ==>
                  e in sw.page || Covered(s.db, e))
  {
    ReachableInv(steps);
    RunNoGap(steps);
    var s := Run(Empty, steps);
    var sw := s.sweeps[lane];
    assert SweepOkay(s.db.events, s.db.checkpoints, s.db.swept, lane, sw);
    forall x | x in Ids(sw.page) ensures x !in s.db.swept {
      var i := SharedId(sw.page, x);
      assert sw.page[i] in s.db.events && After(sw.from, sw.page[i]);
    }
    forall e | e in s.db.events && LaneOf(e) == lane && NotAfter(StampOf(e), StampOf(sw.page[|sw.page| - 1]))
      ensures e in sw.page || Covered(s.db, e)
    {
      hide Inv, Covered;
      PageReaches(s, lane, e);
    }
  }
}
