/** What each statement of the ingest plane means for the ones after it: when rows can be claimed, what is closed, what is due. */
module IngestRules {
  import opened Prelude
  import Dlq = ProjectionDlq
  import Results = StreamResults
  import opened IngestPlane
  import opened IngestLog
  import opened IngestCursor
  import opened IngestReceipts
  import opened IngestHandover
  import opened IngestRuns
  import opened IngestSteps
  import opened IngestTheorems

  // ---- When a receipt can be claimed --------------------------------------------------------

  /** A new receipt carries the active version of its workflow, the first by default, and can be claimed at once. */
  lemma NewReceiptIsDue(g: GroupKey, es: seq<Event>, config: map<nat, nat>, now: int, later: int)
    ensures var r := NewReceipt(g, es, config, now);
            && (g.workflow in config ==> r.version == config[g.workflow]) && (g.workflow !in config ==> r.version == 1)
            && (Claimable(r, later) <==> later >= now)
  {}

  /** A claimed row is the owner's for 300 seconds: nobody can claim it, and recovery releases it exactly from then on. */
  lemma ClaimHolds(r: Receipt, w: nat, now: int, later: int)
    requires Claimable(r, now)
    ensures var c := Claimed(r, w, now);
            && c.owner == Some(w) && c.attempts == r.attempts + 1 <= r.maxAttempts && c.events == r.events && !Claimable(c, later)
            && (Recovered(c, later) == c <==> later < now + 300)
  {}

  /** A current claim is extended to 300 seconds from now, and neither a lost one nor any other row is touched. */
  lemma HeartbeatExtends(s: Sys, w: nat, now: int, later: int)
    ensures !Current(s, w) ==> Heartbeat(s, w, now) == s
    ensures Current(s, w) ==>
              var id := s.jobs[w].receipt; var receipts := Heartbeat(s, w, now).db.receipts;
              && id in receipts && receipts == s.db.receipts[id := receipts[id]] && Current(Heartbeat(s, w, now), w)
              && receipts[id].events == s.db.receipts[id].events && receipts[id].attempts == s.db.receipts[id].attempts
              && (Recovered(receipts[id], later) == receipts[id] <==> later < now + 300)
  {}

  /** A recovered row fails if it was the last attempt, and can otherwise be claimed from that moment on. */
  lemma RecoveryReleases(r: Receipt, events: seq<Event>, projected: set<(nat, nat)>, now: int, later: int)
    requires ReceiptOk(r, events, projected) && r.status.Running? && r.leaseExpiresAt.value <= now
    ensures var c := Recovered(r, now);
            && c.owner.None? && c.attempts == r.attempts && c.failures == r.failures
            && (r.attempts == 10 ==> c.status.Failed? && c.errorClass.WorkerLeaseExpired?)
            && (Claimable(c, later) <==> r.attempts < 10 && later >= now)
  {}

  /** A row whose attempt failed is failed for good after the tenth, and can otherwise be claimed exactly after the delay. */
  lemma FailureDelays(r: Receipt, events: seq<Event>, projected: set<(nat, nat)>, now: int, later: int)
    requires ReceiptOk(r, events, projected) && r.status.Running?
    ensures var c := Aborted(r, now);
            && c.owner.None? && c.attempts == r.attempts && c.errorClass.ProcessingError? && c.failures == r.failures + 1
            && (c.status.Failed? <==> r.attempts == 10)
            && (Claimable(c, later) <==> r.attempts < 10 && later >= now + Dlq.RetryDelay(r.attempts))
  {
    hide Dlq.RetryDelay;
  }

  /** A wake-up makes pending rows claimable now; only a revival brings a failed one back, with all its attempts. */
  lemma WakeExpedites(r: Receipt, events: seq<Event>, projected: set<(nat, nat)>, revive: bool, now: int, later: int)
    requires ReceiptOk(r, events, projected)
    ensures var c := Woken(r, revive, now);
            && (r.status.Running? || r.status.Completed? || (r.status.Failed? && !revive) ==> c == r)
            && (r.status.Queued? || r.status.RetryScheduled? ==> c.attempts == r.attempts && (Claimable(c, later) <==> later >= now))
            && (r.status.Failed? && revive ==>
                  c.attempts == 0 && c.errorClass.NoError? && (Claimable(c, later) <==> later >= now))
  {}

  /** Whatever comes of it, recording a failure ends the worker's job, and without the fence it writes nothing. */
  lemma FailureEndsTheJob(s: Sys, w: nat, now: int)
    ensures w !in Fail(s, w, now).jobs && (!Current(s, w) ==> Fail(s, w, now).db == s.db)
  {}

  // ---- What the success transaction leaves --------------------------------------------------

  /** The key names one of these events under this version and lane. */
  predicate Concerns(key: Dlq.Key, lane: Lane, es: seq<Event>, version: nat) {
    key.lane == lane && key.version == version && exists i :: 0 <= i < |es| && es[i].id == key.event
  }

  predicate Free(row: Dlq.Row, now: int) {
    row.lockedBy.None? || (row.leaseExpiresAt.Some? && row.leaseExpiresAt.value <= now)
  }

  /** Exactly the open rows of these events that no live retrier holds are closed; all others are as they were. */
  predicate ClosedExactly(t: Dlq.Table, t': Dlq.Table, lane: Lane, es: seq<Event>, version: nat, now: int) {
    && |t'| == |t|
    && forall i :: 0 <= i < |t| ==>
         if Concerns(t[i].key, lane, es, version) && !t[i].resolved && Free(t[i], now)
         then t'[i].resolved && t'[i].lockedBy.None? && t'[i].key == t[i].key && t'[i].attempts == t[i].attempts
         else t'[i] == t[i]
  }

  lemma InKeys(lane: Lane, es: seq<Event>, version: nat, key: Dlq.Key)
    ensures key in KeySet(DlqKeys(lane, es, version)) <==> Concerns(key, lane, es, version)
  {
    var keys := DlqKeys(lane, es, version);
    if Concerns(key, lane, es, version) {
      var i :| 0 <= i < |es| && es[i].id == key.event;
      assert keys[i] == key;
    }
  }

  lemma ResolveCloses(t: Dlq.Table, lane: Lane, es: seq<Event>, version: nat, now: int)
    ensures ClosedExactly(t, Dlq.ResolveAll(t, KeySet(DlqKeys(lane, es, version)), now), lane, es, version, now)
  {
    forall i | 0 <= i < |t| ensures t[i].key in KeySet(DlqKeys(lane, es, version)) <==> Concerns(t[i].key, lane, es, version) {
      InKeys(lane, es, version, t[i].key);
    }
    hide KeySet, DlqKeys, Concerns;
  }

  /** The lane's checkpoint is at or past every event of es, and no other lane's moved. */
  ghost predicate PassedAll(c: map<Lane, Stamp>, c': map<Lane, Stamp>, lane: Lane, es: seq<Event>) {
    && (forall i :: 0 <= i < |es| ==> lane in c' && NotAfter(Stamp(es[i].at, es[i].id), c'[lane]))
    && (lane in c' ==> (lane in c && c'[lane] == c[lane]) || exists i :: 0 <= i < |es| && c'[lane] == Stamp(es[i].at, es[i].id))
    && (forall other :: other != lane ==> (other in c' <==> other in c) && (other in c ==> c'[other] == c[other]))
  }

  lemma NotAfterTransitive(a: Stamp, b: Stamp, c: Stamp)
    requires NotAfter(a, b) && NotAfter(b, c)
    ensures NotAfter(a, c)
  {}

  lemma AdvancePasses(c: map<Lane, Stamp>, lane: Lane, es: seq<Event>)
    ensures PassedAll(c, AdvanceFromMeta(c, lane, es), lane, es)
  {
    if es != [] {
      var c' := AdvanceFromMeta(c, lane, es);
      forall i | 0 <= i < |es| ensures NotAfter(Stamp(es[i].at, es[i].id), c'[lane]) {
        NotAfterTransitive(StampOf(es[i]), Latest(es), c'[lane]);
      }
    }
  }

  /**
   * A successful live transaction writes its rows, closes the dead letters of its events, moves the checkpoint past
   * them and completes the receipt; nothing else changes.
   */
  lemma SuccessMeans(db: Db, id: nat, now: int, rows: seq<Results.Row>)
    requires id in db.receipts
    ensures var r := db.receipts[id]; var db' := SuccessTables(db, id, now, rows);
            && Results.Wrote(db.results, db'.results, rows, Results.Scope(r.version, {r.group.tenant}, Ids(r.events), Ids(r.events)))
            && ClosedExactly(db.dlq, db'.dlq, Lane(r.group.tenant, r.group.workflow), r.events, r.version, now)
            && PassedAll(db.checkpoints, db'.checkpoints, Lane(r.group.tenant, r.group.workflow), r.events)
            && id in db'.receipts && db'.receipts[id].status.Completed? && db'.receipts[id].events == r.events
            && db'.receipts == db.receipts[id := db'.receipts[id]] && db'.events == db.events
  {
    hide Results.Wrote, Results.Apply, ClosedExactly, PassedAll, AdvanceFromMeta, Dlq.ResolveAll, DlqKeys, KeySet, Pairs, Ids;
    var r := db.receipts[id];
    var scope := ScopeOf(LaneOfGroup(r.group), r.events, r.version);
    Results.ApplyWrites(db.results, rows, scope);
    ResolveCloses(db.dlq, LaneOfGroup(r.group), r.events, r.version, now);
    AdvancePasses(db.checkpoints, LaneOfGroup(r.group), r.events);
  }

  // ---- What a page leaves -------------------------------------------------------------------

  lemma LastPasses(c: map<Lane, Stamp>, lane: Lane, page: seq<Event>)
    requires page != [] && forall i, j :: 0 <= i < j < |page| ==> Before(StampOf(page[i]), StampOf(page[j]))
    ensures PassedAll(c, Advance(c, lane, StampOf(page[|page| - 1])), lane, page)
  {
    var last := StampOf(page[|page| - 1]);
    var c' := Advance(c, lane, last);
    forall i | 0 <= i < |page| ensures NotAfter(Stamp(page[i].at, page[i].id), c'[lane]) {
      NotAfterTransitive(StampOf(page[i]), last, c'[lane]);
    }
  }

  lemma PageSorted(s: Sys, lane: Lane)
    requires Inv(s) && lane in s.sweeps
    ensures var page := s.sweeps[lane].page;
            page != [] && forall i, j :: 0 <= i < j < |page| ==> Before(StampOf(page[i]), StampOf(page[j]))
  {
    assert SweepOkay(s.db.events, s.db.checkpoints, s.db.swept, lane, s.sweeps[lane]);
  }

  /** A successful page writes its rows, closes the dead letters of its events and moves the checkpoint past them. */
  lemma PageSuccessMeans(s: Sys, lane: Lane, now: int, rows: seq<Results.Row>)
    requires Inv(s) && lane in s.sweeps
    requires var sw := s.sweeps[lane];
             Results.InScope(rows, Results.Scope(sw.version, {lane.tenant}, Ids(sw.page), Ids(sw.page)))
    ensures var sw := s.sweeps[lane]; var s' := SweepOk(s, lane, now, rows);
            && lane !in s'.sweeps
            && Results.Wrote(s.db.results, s'.db.results, rows, Results.Scope(sw.version, {lane.tenant}, Ids(sw.page), Ids(sw.page)))
            && ClosedExactly(s.db.dlq, s'.db.dlq, lane, sw.page, sw.version, now)
            && PassedAll(s.db.checkpoints, s'.db.checkpoints, lane, sw.page)
            && s'.db.receipts == s.db.receipts && s'.db.events == s.db.events
  {
    hide Inv, Results.Wrote, Results.Apply, Results.InScope, ClosedExactly, PassedAll, Advance, Dlq.ResolveAll, DlqKeys, KeySet, Pairs, Ids;
    var sw := s.sweeps[lane];
    PageSorted(s, lane);
    Results.ApplyWrites(s.db.results, rows, ScopeOf(lane, sw.page, sw.version));
    ResolveCloses(s.db.dlq, lane, sw.page, sw.version, now);
    LastPasses(s.db.checkpoints, lane, sw.page);
  }

  /** A failed page opens a dead letter for each of its events under its version and moves the checkpoint past them. */
  lemma PageFailureMeans(s: Sys, lane: Lane, now: int, j: nat)
    requires Inv(s) && lane in s.sweeps && j < |s.sweeps[lane].page|
    ensures var sw := s.sweeps[lane]; var s' := SweepFail(s, lane, now);
            && lane !in s'.sweeps && Dlq.HasOpen(s'.db.dlq, Dlq.Key(lane, sw.page[j].id, sw.version))
            && PassedAll(s.db.checkpoints, s'.db.checkpoints, lane, sw.page)
            && s'.db.results == s.db.results && s'.db.receipts == s.db.receipts && s'.db.events == s.db.events
  {
    hide Inv, PassedAll, Advance, Dlq.EnqueueAll, Dlq.HasOpen;
    var sw := s.sweeps[lane];
    PageSorted(s, lane);
    HeldOpen(s);
    var keys := DlqKeys(lane, sw.page, sw.version);
    Dlq.EnqueueAllOpens(s.db.dlq, keys, now);
    assert Dlq.HasOpen(SweepFail(s, lane, now).db.dlq, keys[j]);
    LastPasses(s.db.checkpoints, lane, sw.page);
  }

  /** A page never exceeds its limit, itself kept between 1 and 1000, and a shorter page is all there is after the cursor. */
  lemma PageIsFull(s: Sys, lane: Lane, version: nat, limit: int, page: seq<Event>)
    requires lane !in s.sweeps && lane in SweepStart(s, lane, version, limit, page).sweeps
    ensures var n := if limit < 1 then 1 else if limit > 1000 then 1000 else limit;
            && 1 <= |page| <= n
            && (|page| < n ==> forall e :: e in s.db.events && e.tenant == lane.tenant && e.payload.workflow == lane.workflow
                                           && (lane in s.db.checkpoints ==> Before(s.db.checkpoints[lane], Stamp(e.at, e.id)))
                                           ==> e in page)
    ensures SweepStart(s, lane, version, limit, page).sweeps[lane].page == page
    ensures SweepStart(s, lane, version, limit, page).sweeps[lane].version == version
  {
    hide IsRange;
  }

  // ---- Acceptance ---------------------------------------------------------------------------

  /** The stamp is the clock if that is past the lane's newest visible event, else one microsecond past that event. */
  lemma StampIsExact(visible: seq<Event>, lane: Lane, clock: int)
    ensures var at := NextAt(visible, lane, clock);
            if forall i :: 0 <= i < |visible| && LaneOf(visible[i]) == lane ==> visible[i].at < clock then at == clock
            else exists i :: 0 <= i < |visible| && LaneOf(visible[i]) == lane && at == visible[i].at + 1
  {}

  predicate SameClientAs(e: Event, q: Submission) { e.tenant == q.tenant && e.clientId == q.clientId }

  /** A submission whose client id is known is a duplicate if it says the same, and otherwise ends the whole request. */
  lemma KnownClientDecides(s: Sys, t: nat, clock: int, id: nat, i: nat)
    requires LogInv(s.db.events, s.txns) && CanStage(s, t)
    requires var visible := s.db.events + s.txns[t].staged;
             i < |visible| && SameClientAs(visible[i], s.txns[t].request[|s.txns[t].answers|])
    ensures var txn := s.txns[t]; var e := (s.db.events + txn.staged)[i];
            Stage(s, t, clock, id) == s.(txns :=
              if e.payload == txn.request[|txn.answers|].payload
              then s.txns[t := txn.(answers := txn.answers + [Answer(e.id, true)])]
              else s.txns - {t})
  {
    hide LogInv, FreshId, ClientStagedElsewhere;
    var visible := s.db.events + s.txns[t].staged;
    var r := FindClient(visible, s.txns[t].request[|s.txns[t].answers|]);
    VisibleGood(s, t);
    assert SameClient(visible[i], visible[r.value]);
  }

  lemma VisibleGood(s: Sys, t: nat)
    requires LogInv(s.db.events, s.txns) && t in s.txns
    ensures Good(s.db.events + s.txns[t].staged)
  {}

  /** One that is new, also to the other open requests, is inserted as it is and stamped. */
  lemma NewClientIsInserted(s: Sys, t: nat, clock: int, id: nat)
    requires CanStage(s, t) && FreshId(s, id)
    requires var q := s.txns[t].request[|s.txns[t].answers|];
             && (forall e :: e in s.db.events + s.txns[t].staged ==> !SameClientAs(e, q))
             && (forall u, e :: u in s.txns && u != t && e in s.txns[u].staged ==> !SameClientAs(e, q))
    ensures var txn := s.txns[t]; var q := txn.request[|txn.answers|];
            var at := NextAt(s.db.events + txn.staged, Lane(q.tenant, q.payload.workflow), clock);
            Stage(s, t, clock, id) == s.(txns := s.txns[t := txn.(
              answers := txn.answers + [Answer(id, false)],
              staged := txn.staged + [Event(id, q.tenant, q.clientId, q.payload, at)])])
  {
    hide NextAt, FreshId;
    var q := s.txns[t].request[|s.txns[t].answers|];
    var r := FindClient(s.db.events + s.txns[t].staged, q);
    assert r.Some? ==> SameClientAs((s.db.events + s.txns[t].staged)[r.value], q);
    forall u | u in s.txns && u != t ensures FindClient(s.txns[u].staged, q).None? {
      var found := FindClient(s.txns[u].staged, q);
      assert found.Some? ==> var e := s.txns[u].staged[found.value]; e in s.txns[u].staged && SameClientAs(e, q);
    }
  }

  lemma BigGroupIsOversize(staged: seq<Event>, g: GroupKey)
    requires |Filter(staged, g)| > 25
    ensures Oversize(staged)
  {
    var big := Filter(staged, g);
    FilterMember(staged, g, big[0]);
    GroupKeysCover(staged);
    var i :| 0 <= i < |GroupKeys(staged)| && GroupKeys(staged)[i] == g;
    assert Groups(staged)[i] == big;
  }

  lemma SmallGroupsFit(staged: seq<Event>)
    requires forall h :: h in GroupKeys(staged) ==> |Filter(staged, h)| <= 25
    ensures !Oversize(staged)
  {}

  lemma OneReceiptPerId(receipts: map<nat, Receipt>, ids: seq<nat>, staged: seq<Event>, config: map<nat, nat>, now: int)
    requires |ids| == |GroupKeys(staged)| && UsableIds(receipts, ids)
    ensures AddReceipts(receipts, ids, staged, config, now, |ids|).Keys == receipts.Keys + (set i | i in ids)
  {
    hide Filter, GroupKeys, NewReceipt, UsableIds;
    AddReceiptsLookup(receipts, ids, staged, config, now, |ids|);
    hide AddReceipts;
  }

  /** An acceptance with a group of more than 25 staged events is rolled back; any other one commits all of them. */
  lemma CommitsUnlessOversize(s: Sys, t: nat, ids: seq<nat>, now: int, g: GroupKey)
    requires CanCommit(s, t)
    ensures |Filter(s.txns[t].staged, g)| > 25 ==> Commit(s, t, ids, now) == s.(txns := s.txns - {t})
    ensures (forall h :: h in GroupKeys(s.txns[t].staged) ==> |Filter(s.txns[t].staged, h)| <= 25)
            && |ids| == |GroupKeys(s.txns[t].staged)| && UsableIds(s.db.receipts, ids) ==>
              && Commit(s, t, ids, now).db.events == s.db.events + s.txns[t].staged
              && Commit(s, t, ids, now).txns == s.txns - {t}
              && Commit(s, t, ids, now).db.receipts.Keys == s.db.receipts.Keys + (set i | i in ids)
  {
    hide Oversize, Filter, GroupKeys, Groups, AddReceipts, UsableIds;
    var staged := s.txns[t].staged;
    if |Filter(staged, g)| > 25 { BigGroupIsOversize(staged, g); }
    if forall h :: h in GroupKeys(staged) ==> |Filter(staged, h)| <= 25 { SmallGroupsFit(staged); }
    if |ids| == |GroupKeys(staged)| && UsableIds(s.db.receipts, ids) {
      OneReceiptPerId(s.db.receipts, ids, staged, s.txns[t].config, now);
    }
  }

  ghost predicate SmallReceipts(receipts: map<nat, Receipt>) {
    forall r :: r in receipts ==> |receipts[r].events| <= 25
  }

  lemma CommitKeepsSmall(s: Sys, t: nat, ids: seq<nat>, now: int)
    requires SmallReceipts(s.db.receipts)
    ensures SmallReceipts(Commit(s, t, ids, now).db.receipts)
  {
    if CanCommit(s, t) && !Oversize(s.txns[t].staged) && |ids| == |GroupKeys(s.txns[t].staged)| && UsableIds(s.db.receipts, ids) {
      var staged := s.txns[t].staged;
      AddReceiptsLookup(s.db.receipts, ids, staged, s.txns[t].config, now, |ids|);
      forall i | 0 <= i < |ids| ensures |Filter(staged, GroupKeys(staged)[i])| <= 25 {
        assert Groups(staged)[i] == Filter(staged, GroupKeys(staged)[i]);
      }
      hide Oversize, Filter, GroupKeys, Groups;
    }
  }

  lemma {:induction false} RunKeepsSmall(steps: seq<Step>)
    ensures SmallReceipts(Run(Empty, steps).db.receipts)
    decreases |steps|
  {
    hide Next, Inv;
    if steps != [] {
      var n := |steps| - 1;
      var s := Run(Empty, steps[..n]);
      RunKeepsSmall(steps[..n]);
      ReachableInv(steps[..n]);
      StepKeepsSmall(s, steps[n]);
    }
  }

  lemma StepKeepsSmall(s: Sys, step: Step)
    requires Inv(s) && SmallReceipts(s.db.receipts)
    ensures SmallReceipts(Next(s, step).db.receipts)
  {
    hide Inv, Commit, SmallReceipts;
    match step
    case CommitStep(t, ids, now) => CommitKeepsSmall(s, t, ids, now);
    case _ => SameWorkStaysSmall(s, step);
  }

  lemma SameWorkStaysSmall(s: Sys, step: Step)
    requires SmallReceipts(s.db.receipts) && !step.CommitStep?
    ensures SmallReceipts(Next(s, step).db.receipts)
  {
    ReceiptsMove(s, step);
    NoNewReceipts(s, step);
    hide Next;
  }

  lemma NoNewReceipts(s: Sys, step: Step)
    requires !step.CommitStep?
    ensures Next(s, step).db.receipts.Keys == s.db.receipts.Keys
  {
    hide Aborted, Finished, Claimed, Recovered, Woken, DlqKeys, KeySet, RowsFit;
    if LeavesReceipts(step) { ReceiptsStay(s, step); }
  }

  /** In every reachable state a receipt has at most 25 events, and all of them agree on tenant, workflow and types. */
  lemma ReceiptsAreUniform(steps: seq<Step>, r: nat, e: Event, f: Event)
    requires var receipts := Run(Empty, steps).db.receipts; r in receipts && e in receipts[r].events && f in receipts[r].events
    ensures |Run(Empty, steps).db.receipts[r].events| <= 25
    ensures e.tenant == f.tenant && e.payload.workflow == f.payload.workflow
    ensures e.payload.contentType == f.payload.contentType && e.payload.eventType == f.payload.eventType
  {
    RunKeepsSmall(steps);
    ReachableInv(steps);
    assert ReceiptOk(Run(Empty, steps).db.receipts[r], Run(Empty, steps).db.events, Run(Empty, steps).db.projected);
  }

  /** Staged events that agree on tenant, workflow and types end up in one receipt. */
  lemma AlikeShareAReceipt(s: Sys, t: nat, ids: seq<nat>, now: int, e: Event, f: Event)
    requires CanCommit(s, t) && !Oversize(s.txns[t].staged)
    requires |ids| == |GroupKeys(s.txns[t].staged)| && UsableIds(s.db.receipts, ids)
    requires e in s.txns[t].staged && f in s.txns[t].staged
    requires e.tenant == f.tenant && e.payload.workflow == f.payload.workflow
    requires e.payload.contentType == f.payload.contentType && e.payload.eventType == f.payload.eventType
    ensures exists r :: r in Commit(s, t, ids, now).db.receipts
                        && e in Commit(s, t, ids, now).db.receipts[r].events && f in Commit(s, t, ids, now).db.receipts[r].events
  {
    var staged := s.txns[t].staged;
    GroupKeysCover(staged);
    var i :| 0 <= i < |GroupKeys(staged)| && GroupKeys(staged)[i] == GroupOf(e);
    FilterMember(staged, GroupOf(e), e);
    FilterMember(staged, GroupOf(e), f);
    AddReceiptsLookup(s.db.receipts, ids, staged, s.txns[t].config, now, |ids|);
    var receipts := Commit(s, t, ids, now).db.receipts;
    assert ids[i] in receipts && receipts[ids[i]].events == Filter(staged, GroupOf(e));
  }
}
