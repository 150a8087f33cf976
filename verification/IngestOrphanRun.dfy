/** A concrete history that ends with an orphan: ten workers die on one receipt while a later one completes. */
module IngestOrphanRun {
  import opened Prelude
  import Dlq = ProjectionDlq
  import opened IngestPlane
  import opened IngestHandover
  import opened IngestRuns
  import opened IngestTheorems
  import opened IngestOrphans

  ghost predicate Reaches(a: Sys, b: Sys) { exists steps :: Run(a, steps) == b }

  lemma ReachesNext(a: Sys, b: Sys, step: Step)
    requires Reaches(a, b)
    ensures Reaches(a, Next(b, step))
  {
    var steps :| Run(a, steps) == b;
    assert (steps + [step])[..|steps + [step]| - 1] == steps;
    assert Run(a, steps + [step]) == Next(b, step);
  }

  lemma ReachesSelf(a: Sys)
    ensures Reaches(a, a)
  {
    assert Run(a, []) == a;
  }

  // ---- One event accepted in its own transaction --------------------------------------------

  function EventFor(events: seq<Event>, q: Submission, clock: int, id: nat): Event {
    Event(id, q.tenant, q.clientId, q.payload, NextAt(events, LaneOfSubmission(q), clock))
  }

  function AcceptedOne(s: Sys, q: Submission, clock: int, id: nat, rid: nat, now: int): Sys {
    var e := EventFor(s.db.events, q, clock, id);
    s.(db := s.db.(events := s.db.events + [e],
                   receipts := s.db.receipts[rid := NewReceipt(GroupOf(e), [e], map[], now)]))
  }

  function Open(q: Submission, held: nat): Txn { Txn([q], map[], [LaneOfSubmission(q)], held, [], []) }

  function Inserted(q: Submission, e: Event): Txn {
    Open(q, 1).(answers := [Answer(e.id, false)], staged := [e])
  }

  lemma BeginOne(s: Sys, q: Submission)
    requires s.txns == map[]
    ensures Begin(s, 0, [q], map[], [LaneOfSubmission(q)]) == s.(txns := map[0 := Open(q, 0)])
    ensures Fence(s.(txns := map[0 := Open(q, 0)]), 0) == s.(txns := map[0 := Open(q, 1)])
  {
    assert IsFencePlan([LaneOfSubmission(q)], [q]) by { assert LaneOfSubmission([q][0]) == LaneOfSubmission(q); }
  }

  lemma StageOne(s: Sys, q: Submission, clock: int, id: nat)
    requires id !in Ids(s.db.events) && FindClient(s.db.events, q).None?
    ensures Stage(s.(txns := map[0 := Open(q, 1)]), 0, clock, id)
            == s.(txns := map[0 := Inserted(q, EventFor(s.db.events, q, clock, id))])
  {
    assert s.db.events + [] == s.db.events;
    var s2 := s.(txns := map[0 := Open(q, 1)]);
    assert Ids([]) == {};
    assert FreshId(s2, id) && !ClientStagedElsewhere(s2, 0, q);
    assert s2.txns[0].answers + [Answer(id, false)] == [Answer(id, false)];
    var e := EventFor(s.db.events, q, clock, id);
    assert s2.txns[0].staged + [e] == [e];
    assert s2.txns[0 := Inserted(q, e)] == map[0 := Inserted(q, e)];
  }

  lemma CommitOne(s: Sys, q: Submission, clock: int, id: nat, rid: nat, now: int)
    requires s.txns == map[] && rid !in s.db.receipts
    ensures Commit(s.(txns := map[0 := Inserted(q, EventFor(s.db.events, q, clock, id))]), 0, [rid], now)
            == AcceptedOne(s, q, clock, id, rid, now)
  {
    var e := EventFor(s.db.events, q, clock, id);
    OneGroup(e);
    AddOneReceipt(s.db.receipts, rid, e, now);
    assert map[0 := Inserted(q, e)] - {0} == map[];
  }

  lemma AcceptOne(start: Sys, s: Sys, q: Submission, clock: int, id: nat, rid: nat, now: int)
    requires Reaches(start, s) && s.txns == map[]
    requires id !in Ids(s.db.events) && FindClient(s.db.events, q).None? && rid !in s.db.receipts
    ensures Reaches(start, AcceptedOne(s, q, clock, id, rid, now))
  {
    var e := EventFor(s.db.events, q, clock, id);
    BeginOne(s, q);
    StageOne(s, q, clock, id);
    CommitOne(s, q, clock, id, rid, now);
    hide Begin, Fence, Stage, Commit;
    ReachesNext(start, s, BeginStep(0, [q], map[], [LaneOfSubmission(q)]));
    ReachesNext(start, s.(txns := map[0 := Open(q, 0)]), FenceStep(0));
    ReachesNext(start, s.(txns := map[0 := Open(q, 1)]), StageStep(0, clock, id));
    ReachesNext(start, s.(txns := map[0 := Inserted(q, e)]), CommitStep(0, [rid], now));
  }

  lemma OneGroup(e: Event)
    ensures GroupKeys([e]) == [GroupOf(e)] && Filter([e], GroupOf(e)) == [e] && !Oversize([e])
  {}

  lemma AddOneReceipt(receipts: map<nat, Receipt>, rid: nat, e: Event, now: int)
    requires GroupKeys([e]) == [GroupOf(e)] && Filter([e], GroupOf(e)) == [e]
    ensures AddReceipts(receipts, [rid], [e], map[], now, 1) == receipts[rid := NewReceipt(GroupOf(e), [e], map[], now)]
  {}

  // ---- A worker that claims and dies --------------------------------------------------------

  predicate OthersRest(receipts: map<nat, Receipt>, r: nat) {
    forall q :: q in receipts && q != r ==> !receipts[q].status.Running?
  }

  /** The row after the k-th of the remaining attempts ended by lease expiry. */
  function Crashed(q: Receipt, now: int): Receipt {
    q.(status := if q.attempts + 1 >= q.maxAttempts then Failed else RetryScheduled, attempts := q.attempts + 1,
       nextAttemptAt := now + LEASE_SECONDS, owner := None, leaseExpiresAt := None, errorClass := WorkerLeaseExpired)
  }

  function AfterCrash(s: Sys, r: nat, now: int): Sys
    requires r in s.db.receipts
  {
    s.(db := s.db.(receipts := s.db.receipts[r := Crashed(s.db.receipts[r], now)]))
  }

  lemma ClaimAndStop(s: Sys, r: nat, now: int)
    requires s.jobs == map[] && r in s.db.receipts && Claimable(s.db.receipts[r], now)
    ensures WorkerStops(Claim(s, 0, r, now), 0)
            == s.(db := s.db.(receipts := s.db.receipts[r := Claimed(s.db.receipts[r], 0, now)]))
  {
    assert s.jobs[0 := Job(r, Claimed(s.db.receipts[r], 0, now).attempts)] - {0} == map[];
  }

  lemma RecoverCrashed(s: Sys, r: nat, now: int)
    requires r in s.db.receipts && OthersRest(s.db.receipts, r)
    ensures Recover(s.(db := s.db.(receipts := s.db.receipts[r := Claimed(s.db.receipts[r], 0, now)])), now + LEASE_SECONDS)
            == AfterCrash(s, r, now)
  {
    var receipts := s.db.receipts[r := Claimed(s.db.receipts[r], 0, now)];
    assert (map q | q in receipts :: Recovered(receipts[q], now + LEASE_SECONDS))
        == s.db.receipts[r := Crashed(s.db.receipts[r], now)];
  }

  lemma CrashOnce(start: Sys, s: Sys, r: nat, now: int)
    requires Reaches(start, s) && s.jobs == map[] && r in s.db.receipts
    requires Claimable(s.db.receipts[r], now) && OthersRest(s.db.receipts, r)
    ensures Reaches(start, AfterCrash(s, r, now))
  {
    ClaimAndStop(s, r, now);
    RecoverCrashed(s, r, now);
    hide Claim, WorkerStops, Recover, Reaches, Claimable, OthersRest;
    var s1 := Claim(s, 0, r, now);
    var s2 := WorkerStops(s1, 0);
    ReachesNext(start, s, ClaimStep(0, r, now));
    ReachesNext(start, s1, WorkerStopsStep(0));
    ReachesNext(start, s2, RecoverStep(now + LEASE_SECONDS));
  }

  lemma {:induction false} CrashUntilFailed(start: Sys, s: Sys, r: nat, now: int) returns (end: Sys)
    requires Reaches(start, s) && s.jobs == map[] && r in s.db.receipts
    requires Claimable(s.db.receipts[r], now) && OthersRest(s.db.receipts, r)
    ensures Reaches(start, end)
    ensures r in end.db.receipts && end == s.(db := s.db.(receipts := s.db.receipts[r := end.db.receipts[r]]))
    ensures var q, q' := s.db.receipts[r], end.db.receipts[r];
            q'.status.Failed? && q'.errorClass.WorkerLeaseExpired? && q'.failures == q.failures && q'.events == q.events
    decreases s.db.receipts[r].maxAttempts - s.db.receipts[r].attempts
  {
    CrashOnce(start, s, r, now);
    var q := Crashed(s.db.receipts[r], now);
    end := AfterCrash(s, r, now);
    if !q.status.Failed? {
      end := CrashUntilFailed(start, end, r, now + LEASE_SECONDS);
    }
  }

  // ---- The history --------------------------------------------------------------------------

  const EARLY := Submission(0, 1, Payload(0, 0, 0, 1))
  const LATE := Submission(0, 2, Payload(0, 0, 0, 2))
  const EARLY_EVENT := Event(1, 0, 1, EARLY.payload, 10)
  const LATE_EVENT := Event(2, 0, 2, LATE.payload, 20)

  function ReceiptFor(e: Event): Receipt { NewReceipt(GroupOf(e), [e], map[], 0) }

  function OneEvent(): Sys {
    Empty.(db := Empty.db.(events := [EARLY_EVENT], receipts := map[1 := ReceiptFor(EARLY_EVENT)]))
  }

  function TwoEvents(): Sys {
    Empty.(db := Empty.db.(events := [EARLY_EVENT, LATE_EVENT],
                           receipts := map[1 := ReceiptFor(EARLY_EVENT), 2 := ReceiptFor(LATE_EVENT)]))
  }

  lemma EarlyAccepted()
    ensures AcceptedOne(Empty, EARLY, 10, 1, 1, 0) == OneEvent()
  {
    assert LaneMax([], LaneOf(EARLY_EVENT)).None?;
    assert EventFor([], EARLY, 10, 1) == EARLY_EVENT;
    assert [] + [EARLY_EVENT] == [EARLY_EVENT];
  }

  lemma LateAccepted()
    ensures AcceptedOne(OneEvent(), LATE, 20, 2, 2, 0) == TwoEvents()
  {
    assert [EARLY_EVENT][..0] == [];
    assert LaneMax([EARLY_EVENT], LaneOf(LATE_EVENT)) == Some(10);
    assert EventFor([EARLY_EVENT], LATE, 20, 2) == LATE_EVENT;
    assert [EARLY_EVENT] + [LATE_EVENT] == [EARLY_EVENT, LATE_EVENT];
  }

  lemma LateIsNew()
    ensures FindClient([EARLY_EVENT], LATE).None? && 2 !in Ids([EARLY_EVENT])
  {
    assert [EARLY_EVENT][..0] == [];
    assert FindClient([], LATE).None?;
  }

  lemma BothAccepted()
    ensures Reaches(Empty, TwoEvents())
  {
    ReachesSelf(Empty);
    LateIsNew();
    EarlyAccepted();
    LateAccepted();
    hide AcceptedOne, Reaches;
    AcceptOne(Empty, Empty, EARLY, 10, 1, 1, 0);
    AcceptOne(Empty, OneEvent(), LATE, 20, 2, 2, 0);
  }

  function LateClaimed(): Sys {
    TwoEvents().(jobs := map[0 := Job(2, 1)],
                 db := TwoEvents().db.(receipts := TwoEvents().db.receipts[2 := Claimed(ReceiptFor(LATE_EVENT), 0, 0)]))
  }

  /** The later receipt has completed, so the watermark has passed the earlier event. */
  function LateDone(): Sys {
    TwoEvents().(db := TwoEvents().db.(
                   receipts := TwoEvents().db.receipts[2 := Finished(Claimed(ReceiptFor(LATE_EVENT), 0, 0))],
                   checkpoints := map[LaneOf(EARLY_EVENT) := StampOf(LATE_EVENT)],
                   projected := {(2, 1)}))
  }

  lemma LateIsClaimed()
    ensures Claim(TwoEvents(), 0, 2, 0) == LateClaimed()
  {}

  lemma LateSucceeds()
    ensures Succeed(LateClaimed(), 0, 0, []) == LateDone()
  {
    assert Pairs([LATE_EVENT], 1) == {(2, 1)} by { assert [LATE_EVENT][0] == LATE_EVENT; }
    assert RowsFit(LateClaimed().db, 2, []);
    assert LateClaimed().jobs - {0} == map[];
    assert Dlq.ResolveAll([], KeySet(DlqKeys(LaneOf(LATE_EVENT), [LATE_EVENT], 1)), 0) == [];
  }

  lemma LateCompletes()
    ensures Reaches(Empty, LateDone())
  {
    BothAccepted();
    LateIsClaimed();
    LateSucceeds();
    hide Claim, Succeed, Reaches, TwoEvents, LateClaimed, LateDone;
    ReachesNext(Empty, TwoEvents(), ClaimStep(0, 2, 0));
    ReachesNext(Empty, LateClaimed(), SucceedStep(0, 0, []));
  }

  /** The promise that a crash cannot orphan an accepted event fails: an orphan is reachable. */
  lemma OrphansHappen()
    ensures exists steps :: Orphan(Run(Empty, steps), 1, EARLY_EVENT) && DiedUnrecorded(Run(Empty, steps).db.receipts[1])
  {
    LateCompletes();
    assert OthersRest(LateDone().db.receipts, 1);
    var end := CrashUntilFailed(Empty, LateDone(), 1, 0);
    assert Dlq.EventsOf(end.db.dlq) == {};
    assert Firsts(end.db.projected) == {2} by {
      assert end.db.projected == {(2, 1)};
    }
    assert Orphan(end, 1, EARLY_EVENT) && DiedUnrecorded(end.db.receipts[1]);
    var steps :| Run(Empty, steps) == end;
  }
}
