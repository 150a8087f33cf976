/**
 * Checkpoints name committed events, so every event accepted later lies strictly after all of them;
 * projector pages are gap-free ranges that stay gap-free until they commit, and no event is swept twice.
 */
module IngestCursor {
  import opened Prelude
  import opened IngestPlane
  import opened IngestLog

  ghost predicate Stamped(events: seq<Event>, lane: Lane, stamp: Stamp) {
    exists i :: 0 <= i < |events| && LaneOf(events[i]) == lane && StampOf(events[i]) == stamp
  }

  /** An in-flight page, and the part of the lane that was swept before it. */
  ghost predicate SweepOkay(events: seq<Event>, checkpoints: map<Lane, Stamp>, swept: set<nat>, lane: Lane, sw: Sweep) {
    && IsRange(events, lane, sw.from, sw.page)
    && (sw.from.Some? ==> lane in checkpoints && NotAfter(sw.from.value, checkpoints[lane]))
    && (forall e :: e in events && LaneOf(e) == lane && e.id in swept ==> !After(sw.from, e))
  }

  ghost predicate CursorInv(events: seq<Event>, checkpoints: map<Lane, Stamp>, sweeps: map<Lane, Sweep>, swept: set<nat>) {
    && (forall lane :: lane in checkpoints ==> Stamped(events, lane, checkpoints[lane]))
    && swept <= Ids(events)
    && (forall e :: e in events && e.id in swept ==>
          LaneOf(e) in checkpoints && NotAfter(StampOf(e), checkpoints[LaneOf(e)]))
    && (forall lane :: lane in sweeps ==> SweepOkay(events, checkpoints, swept, lane, sweeps[lane]))
  }

  // ---- The checkpoint upsert ----------------------------------------------------------------

  lemma AdvanceKeeps(events: seq<Event>, checkpoints: map<Lane, Stamp>, sweeps: map<Lane, Sweep>, swept: set<nat>,
                     lane: Lane, to: Stamp)
    requires CursorInv(events, checkpoints, sweeps, swept) && Stamped(events, lane, to)
    ensures var c := Advance(checkpoints, lane, to);
            && CursorInv(events, c, sweeps, swept)
            && lane in c && NotAfter(to, c[lane])
            && (forall l :: l in checkpoints ==> l in c && NotAfter(checkpoints[l], c[l]))
  {
  }

  /** Sweeping a page whose end the checkpoint has reached. */
  lemma SweptKeeps(events: seq<Event>, checkpoints: map<Lane, Stamp>, sweeps: map<Lane, Sweep>, swept: set<nat>, lane: Lane)
    requires CursorInv(events, checkpoints, sweeps, swept) && Good(events) && lane in sweeps && lane in checkpoints
    requires var page := sweeps[lane].page; NotAfter(StampOf(page[|page| - 1]), checkpoints[lane])
    ensures CursorInv(events, checkpoints, sweeps - {lane}, swept + Ids(sweeps[lane].page))
  {
    var page := sweeps[lane].page;
    assert SweepOkay(events, checkpoints, swept, lane, sweeps[lane]);
    PageEvents(events, lane, sweeps[lane].from, page);
    forall e | e in events && e.id in Ids(page) ensures LaneOf(e) == lane && NotAfter(StampOf(e), checkpoints[lane]) {
      BeforeLast(StampOf(e), StampOf(page[|page| - 1]), checkpoints[lane]);
    }
    forall l | l in sweeps - {lane} ensures SweepOkay(events, checkpoints, swept + Ids(page), l, sweeps[l]) {
      assert SweepOkay(events, checkpoints, swept, l, sweeps[l]);
    }
    hide SweepOkay, IsRange;
  }

  lemma BeforeLast(a: Stamp, b: Stamp, c: Stamp)
    requires NotAfter(a, b) && NotAfter(b, c)
    ensures NotAfter(a, c)
  {}

  /** Whoever shares an id with a page's event is that event. */
  lemma PageEvents(events: seq<Event>, lane: Lane, from: Option<Stamp>, page: seq<Event>)
    requires Good(events) && IsRange(events, lane, from, page)
    ensures Ids(page) <= Ids(events)
    ensures forall e :: e in events && e.id in Ids(page) ==>
              LaneOf(e) == lane && NotAfter(StampOf(e), StampOf(page[|page| - 1]))
  {}

  lemma SweepStartKeeps(s: Sys, lane: Lane, version: nat, limit: int, page: seq<Event>)
    requires CursorInv(s.db.events, s.db.checkpoints, s.sweeps, s.db.swept)
    ensures var s' := SweepStart(s, lane, version, limit, page);
            CursorInv(s'.db.events, s'.db.checkpoints, s'.sweeps, s'.db.swept)
  {
    var s' := SweepStart(s, lane, version, limit, page);
    if s' != s {
      assert SweepOkay(s.db.events, s.db.checkpoints, s.db.swept, lane, s'.sweeps[lane]);
    }
  }

  lemma LastIsStamped(events: seq<Event>, checkpoints: map<Lane, Stamp>, swept: set<nat>, lane: Lane, sw: Sweep)
    requires SweepOkay(events, checkpoints, swept, lane, sw)
    ensures sw.page != [] && Stamped(events, lane, StampOf(sw.page[|sw.page| - 1]))
  {}

  /** Either outcome of a page moves the cursor to its last event. */
  lemma SweepTablesKeeps(s: Sys, lane: Lane)
    requires CursorInv(s.db.events, s.db.checkpoints, s.sweeps, s.db.swept) && Good(s.db.events) && lane in s.sweeps
    ensures var db := SweepTables(s.db, lane, s.sweeps[lane].page);
            CursorInv(db.events, db.checkpoints, s.sweeps - {lane}, db.swept)
  {
    var page := s.sweeps[lane].page;
    LastIsStamped(s.db.events, s.db.checkpoints, s.db.swept, lane, s.sweeps[lane]);
    hide CursorInv, Stamped, SweepOkay, Advance, Good;
    var last := page[|page| - 1];
    AdvanceKeeps(s.db.events, s.db.checkpoints, s.sweeps, s.db.swept, lane, StampOf(last));
    SweptKeeps(s.db.events, Advance(s.db.checkpoints, lane, StampOf(last)), s.sweeps, s.db.swept, lane);
  }

  // ---- Commit -------------------------------------------------------------------------------

  /** A staged event is later than every committed event of its lane, hence than the lane's checkpoint. */
  lemma StagedIsAhead(events: seq<Event>, checkpoints: map<Lane, Stamp>, txn: Txn, j: nat)
    requires TxnOk(events, txn) && j < |txn.staged|
    requires forall lane :: lane in checkpoints ==> Stamped(events, lane, checkpoints[lane])
    ensures forall e :: e in events && LaneOf(e) == LaneOf(txn.staged[j]) ==> e.at < txn.staged[j].at
    ensures txn.staged[j].id !in Ids(events)
    ensures LaneOf(txn.staged[j]) in checkpoints ==>
              Before(checkpoints[LaneOf(txn.staged[j])], StampOf(txn.staged[j]))
  {
    var all := events + txn.staged;
    assert all[|events| + j] == txn.staged[j];
    forall i | 0 <= i < |events|
      ensures events[i].id != txn.staged[j].id
      ensures LaneOf(events[i]) == LaneOf(txn.staged[j]) ==> events[i].at < txn.staged[j].at
    {
      assert all[i] == events[i];
    }
  }

  /** New events land after the end of every in-flight page of their lane. */
  lemma RangeKeeps(events: seq<Event>, txn: Txn, lane: Lane, from: Option<Stamp>, page: seq<Event>)
    requires TxnOk(events, txn) && IsRange(events, lane, from, page)
    ensures IsRange(events + txn.staged, lane, from, page)
  {
    var last := page[|page| - 1];
    forall e | e in txn.staged && LaneOf(e) == lane ensures Before(StampOf(last), StampOf(e)) {
      var j :| 0 <= j < |txn.staged| && txn.staged[j] == e;
      StagedIsAhead(events, map[], txn, j);
      assert last in events;
    }
  }

  lemma StagedAreNew(events: seq<Event>, txn: Txn)
    requires TxnOk(events, txn)
    ensures forall e :: e in txn.staged ==> e.id !in Ids(events)
    ensures Ids(events) <= Ids(events + txn.staged)
  {
    forall e | e in txn.staged ensures e.id !in Ids(events) {
      var j :| 0 <= j < |txn.staged| && txn.staged[j] == e;
      StagedIsAhead(events, map[], txn, j);
    }
    forall x | x in Ids(events) ensures x in Ids(events + txn.staged) {
      var i :| 0 <= i < |events| && events[i].id == x;
      assert (events + txn.staged)[i].id == x;
    }
  }

  lemma StampedKeeps(events: seq<Event>, more: seq<Event>, lane: Lane, stamp: Stamp)
    requires Stamped(events, lane, stamp)
    ensures Stamped(events + more, lane, stamp)
  {
    var i :| 0 <= i < |events| && LaneOf(events[i]) == lane && StampOf(events[i]) == stamp;
    assert (events + more)[i] == events[i];
  }

  lemma SweepKeeps(events: seq<Event>, txn: Txn, checkpoints: map<Lane, Stamp>, swept: set<nat>, lane: Lane, sw: Sweep)
    requires TxnOk(events, txn) && swept <= Ids(events)
    requires SweepOkay(events, checkpoints, swept, lane, sw)
    ensures SweepOkay(events + txn.staged, checkpoints, swept, lane, sw)
  {
    StagedAreNew(events, txn);
    RangeKeeps(events, txn, lane, sw.from, sw.page);
  }

  lemma CommitCursorKeeps(s: Sys, t: nat, ids: seq<nat>, now: int)
    requires LogInv(s.db.events, s.txns)
    requires CursorInv(s.db.events, s.db.checkpoints, s.sweeps, s.db.swept)
    ensures var s' := Commit(s, t, ids, now);
            CursorInv(s'.db.events, s'.db.checkpoints, s'.sweeps, s'.db.swept)
  {
    if CanCommit(s, t) {
      AcceptedCursor(s.db.events, s.txns[t], s.db.checkpoints, s.sweeps, s.db.swept);
    }
  }

  lemma AcceptedCursor(events: seq<Event>, txn: Txn, checkpoints: map<Lane, Stamp>, sweeps: map<Lane, Sweep>, swept: set<nat>)
    requires TxnOk(events, txn) && CursorInv(events, checkpoints, sweeps, swept)
    ensures CursorInv(events + txn.staged, checkpoints, sweeps, swept)
  {
    StagedAreNew(events, txn);
    forall lane | lane in checkpoints ensures Stamped(events + txn.staged, lane, checkpoints[lane]) {
      StampedKeeps(events, txn.staged, lane, checkpoints[lane]);
    }
    forall lane | lane in sweeps ensures SweepOkay(events + txn.staged, checkpoints, swept, lane, sweeps[lane]) {
      SweepKeeps(events, txn, checkpoints, swept, lane, sweeps[lane]);
    }
  }

  lemma SucceedCursorKeeps(s: Sys, id: nat, now: int, rows: seq<Results.Row>)
    requires CursorInv(s.db.events, s.db.checkpoints, s.sweeps, s.db.swept) && id in s.db.receipts
    requires forall i :: 0 <= i < |s.db.receipts[id].events| ==>
               s.db.receipts[id].events[i] in s.db.events
               && LaneOf(s.db.receipts[id].events[i]) == LaneOfGroup(s.db.receipts[id].group)
    ensures var db := SuccessTables(s.db, id, now, rows); CursorInv(db.events, db.checkpoints, s.sweeps, db.swept)
  {
    var r := s.db.receipts[id];
    if r.events != [] {
      var i :| 0 <= i < |r.events| && Latest(r.events) == StampOf(r.events[i]);
      assert r.events[i] in s.db.events;
      AdvanceKeeps(s.db.events, s.db.checkpoints, s.sweeps, s.db.swept, LaneOfGroup(r.group), Latest(r.events));
    }
  }
}
