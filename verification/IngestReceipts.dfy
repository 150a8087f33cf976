/** Receipts partition the accepted events and keep their life cycle, whoever claims, loses or revives them. */
module IngestReceipts {
  import opened Prelude
  import opened IngestPlane
  import opened IngestLog

  // ---- Grouping one acceptance into receipts ------------------------------------------------

  lemma {:induction false} FilterMember(es: seq<Event>, g: GroupKey, e: Event)
    ensures e in Filter(es, g) <==> e in es && GroupOf(e) == g
  {
    if es != [] {
      FilterMember(es[..|es| - 1], g, e);
      assert es == es[..|es| - 1] + [es[|es| - 1]];
    }
  }

  lemma {:induction false} GroupKeysCover(es: seq<Event>)
    ensures forall e :: e in es ==> GroupOf(e) in GroupKeys(es)
    ensures forall g :: g in GroupKeys(es) ==> exists e :: e in es && GroupOf(e) == g
    ensures forall i, j :: 0 <= i < j < |GroupKeys(es)| ==> GroupKeys(es)[i] != GroupKeys(es)[j]
  {
    if es != [] {
      var last := es[|es| - 1];
      GroupKeysCover(es[..|es| - 1]);
      assert es == es[..|es| - 1] + [last];
      forall g | g in GroupKeys(es) ensures exists e :: e in es && GroupOf(e) == g {
        if g == GroupOf(last) {
          assert last in es;
        } else {
          assert g in GroupKeys(es[..|es| - 1]);
          var e :| e in es[..|es| - 1] && GroupOf(e) == g;
          assert e in es;
        }
      }
    }
  }

  lemma {:induction false} AddReceiptsLookup(receipts: map<nat, Receipt>, ids: seq<nat>, es: seq<Event>,
                                             config: map<nat, nat>, now: int, n: nat)
    requires n <= |ids| == |GroupKeys(es)| && UsableIds(receipts, ids)
    ensures var all := AddReceipts(receipts, ids, es, config, now, n);
            && (forall r :: r in receipts ==> r in all && all[r] == receipts[r])
            && (forall i :: 0 <= i < n ==>
                  ids[i] in all && all[ids[i]] == NewReceipt(GroupKeys(es)[i], Filter(es, GroupKeys(es)[i]), config, now))
            && (forall r :: r in all ==> r in receipts || exists i :: 0 <= i < n && r == ids[i])
  {
    hide NewReceipt, Filter, GroupKeys;
    if n > 0 {
      AddReceiptsLookup(receipts, ids, es, config, now, n - 1);
    }
  }

  // ---- Invariant ----------------------------------------------------------------------------

  ghost predicate ReceiptOk(r: Receipt, events: seq<Event>, projected: set<(nat, nat)>) {
    && r.events != []
    && (forall e :: e in r.events ==> e in events && GroupOf(e) == r.group)
    && r.maxAttempts == MAX_ATTEMPTS && r.attempts <= MAX_ATTEMPTS
    && (r.status.Running? <==> r.owner.Some?)
    && (r.status.Running? <==> r.leaseExpiresAt.Some?)
    && (r.status.Running? ==> r.attempts >= 1 && r.errorClass.NoError?)
    && (r.status.Queued? || r.status.RetryScheduled? ==> r.attempts < MAX_ATTEMPTS)
    && r.successes == (if r.status.Completed? then 1 else 0)
    && (r.status.Completed? ==> Pairs(r.events, r.version) <= projected)
    && (r.status.Failed? ==> r.attempts == MAX_ATTEMPTS && !r.errorClass.NoError?)
    && (r.errorClass.ProcessingError? ==> r.failures > 0)
  }

  ghost predicate InSomeReceipt(receipts: map<nat, Receipt>, e: Event) {
    exists r :: r in receipts && e in receipts[r].events
  }

  ghost predicate Unshared(a: Receipt, b: Receipt) { Ids(a.events) !! Ids(b.events) }

  ghost predicate ReceiptsInv(events: seq<Event>, receipts: map<nat, Receipt>, jobs: map<nat, Job>, projected: set<(nat, nat)>) {
    && (forall r :: r in receipts ==> ReceiptOk(receipts[r], events, projected))
    && (forall e :: e in events ==> InSomeReceipt(receipts, e))
    && (forall r, q :: r in receipts && q in receipts && r != q ==> Unshared(receipts[r], receipts[q]))
    && (forall w :: w in jobs ==> jobs[w].receipt in receipts)
  }

  /** Statements that rewrite receipt rows in place keep identities, so only the row shape is at stake. */
  lemma RewriteKeeps(events: seq<Event>, receipts: map<nat, Receipt>, receipts': map<nat, Receipt>,
                     jobs: map<nat, Job>, jobs': map<nat, Job>, projected: set<(nat, nat)>, projected': set<(nat, nat)>)
    requires ReceiptsInv(events, receipts, jobs, projected) && projected <= projected'
    requires receipts'.Keys == receipts.Keys
    requires forall r :: r in receipts ==> receipts'[r].events == receipts[r].events
    requires forall r :: r in receipts ==> ReceiptOk(receipts'[r], events, projected')
    requires forall w :: w in jobs' ==> jobs'[w].receipt in receipts
    ensures ReceiptsInv(events, receipts', jobs', projected')
  {}

  lemma WakeKeeps(s: Sys, ids: set<nat>, revive: bool, now: int)
    requires ReceiptsInv(s.db.events, s.db.receipts, s.jobs, s.db.projected)
    ensures var s' := Wake(s, ids, revive, now);
            ReceiptsInv(s'.db.events, s'.db.receipts, s'.jobs, s'.db.projected)
  {
    RewriteKeeps(s.db.events, s.db.receipts, Wake(s, ids, revive, now).db.receipts, s.jobs, s.jobs, s.db.projected, s.db.projected);
  }

  lemma RecoverKeeps(s: Sys, now: int)
    requires ReceiptsInv(s.db.events, s.db.receipts, s.jobs, s.db.projected)
    ensures var s' := Recover(s, now); ReceiptsInv(s'.db.events, s'.db.receipts, s'.jobs, s'.db.projected)
  {
    RewriteKeeps(s.db.events, s.db.receipts, Recover(s, now).db.receipts, s.jobs, s.jobs, s.db.projected, s.db.projected);
  }

  lemma ClaimKeeps(s: Sys, w: nat, r: nat, now: int)
    requires ReceiptsInv(s.db.events, s.db.receipts, s.jobs, s.db.projected)
    ensures var s' := Claim(s, w, r, now); ReceiptsInv(s'.db.events, s'.db.receipts, s'.jobs, s'.db.projected)
  {
    var s' := Claim(s, w, r, now);
    if s' != s {
      assert ReceiptOk(s.db.receipts[r], s.db.events, s.db.projected);
      RewriteKeeps(s.db.events, s.db.receipts, s'.db.receipts, s.jobs, s'.jobs, s.db.projected, s.db.projected);
    }
  }

  lemma HeartbeatKeeps(s: Sys, w: nat, now: int)
    requires ReceiptsInv(s.db.events, s.db.receipts, s.jobs, s.db.projected)
    ensures var s' := Heartbeat(s, w, now); ReceiptsInv(s'.db.events, s'.db.receipts, s'.jobs, s'.db.projected)
  {
    var s' := Heartbeat(s, w, now);
    if s' != s {
      assert ReceiptOk(s.db.receipts[s.jobs[w].receipt], s.db.events, s.db.projected);
      RewriteKeeps(s.db.events, s.db.receipts, s'.db.receipts, s.jobs, s.jobs, s.db.projected, s.db.projected);
    }
  }

  lemma FinishedOk(r: Receipt, events: seq<Event>, projected: set<(nat, nat)>)
    requires ReceiptOk(r, events, projected) && r.status.Running?
    ensures ReceiptOk(Finished(r), events, projected + Pairs(r.events, r.version))
  {}

  lemma AbortedOk(r: Receipt, now: int, events: seq<Event>, projected: set<(nat, nat)>)
    requires ReceiptOk(r, events, projected) && r.status.Running?
    ensures ReceiptOk(Aborted(r, now), events, projected)
  {
    hide FailureDelay;
  }

  lemma GrownProjection(r: Receipt, events: seq<Event>, projected: set<(nat, nat)>, projected': set<(nat, nat)>)
    requires ReceiptOk(r, events, projected) && projected <= projected'
    ensures ReceiptOk(r, events, projected')
  {}

  /** A transaction of one receipt rewrites only its own row. */
  lemma OneRowKeeps(events: seq<Event>, receipts: map<nat, Receipt>, jobs: map<nat, Job>, projected: set<(nat, nat)>,
                    projected': set<(nat, nat)>, id: nat, r: Receipt, w: nat)
    requires ReceiptsInv(events, receipts, jobs, projected) && projected <= projected'
    requires id in receipts && r.events == receipts[id].events && ReceiptOk(r, events, projected')
    ensures ReceiptsInv(events, receipts[id := r], jobs - {w}, projected')
  {
    forall q | q in receipts ensures ReceiptOk(receipts[id := r][q], events, projected') {
      if q != id { GrownProjection(receipts[q], events, projected, projected'); }
    }
    hide ReceiptOk;
    RewriteKeeps(events, receipts, receipts[id := r], jobs, jobs - {w}, projected, projected');
  }

  lemma SucceedKeeps(s: Sys, w: nat, now: int, rows: seq<Results.Row>)
    requires ReceiptsInv(s.db.events, s.db.receipts, s.jobs, s.db.projected) && Current(s, w)
    ensures var db := SuccessTables(s.db, s.jobs[w].receipt, now, rows);
            ReceiptsInv(db.events, db.receipts, s.jobs - {w}, db.projected)
  {
    var id := s.jobs[w].receipt;
    var r := s.db.receipts[id];
    FinishedOk(r, s.db.events, s.db.projected);
    hide ReceiptsInv, ReceiptOk;
    OneRowKeeps(s.db.events, s.db.receipts, s.jobs, s.db.projected, s.db.projected + Pairs(r.events, r.version), id, Finished(r), w);
  }

  lemma FailKeeps(s: Sys, w: nat, now: int)
    requires ReceiptsInv(s.db.events, s.db.receipts, s.jobs, s.db.projected) && Current(s, w)
    ensures var db := FailureTables(s.db, s.jobs[w].receipt, now);
            ReceiptsInv(db.events, db.receipts, s.jobs - {w}, db.projected)
  {
    var id := s.jobs[w].receipt;
    var r := s.db.receipts[id];
    AbortedOk(r, now, s.db.events, s.db.projected);
    hide ReceiptsInv, ReceiptOk, FailureDelay;
    OneRowKeeps(s.db.events, s.db.receipts, s.jobs, s.db.projected, s.db.projected, id, Aborted(r, now), w);
  }

  // ---- Commit -------------------------------------------------------------------------------

  lemma SharedId(a: seq<Event>, x: nat) returns (i: nat)
    requires x in Ids(a)
    ensures i < |a| && a[i].id == x
  {
    i :| 0 <= i < |a| && a[i].id == x;
  }

  /** Every receipt an acceptance creates holds the staged events of one group, in order. */
  lemma NewReceiptOk(events: seq<Event>, txn: Txn, i: nat, now: int, projected: set<(nat, nat)>)
    requires i < |GroupKeys(txn.staged)|
    ensures var g := GroupKeys(txn.staged)[i];
            ReceiptOk(NewReceipt(g, Filter(txn.staged, g), txn.config, now), events + txn.staged, projected)
  {
    var g := GroupKeys(txn.staged)[i];
    GroupKeysCover(txn.staged);
    assert g in GroupKeys(txn.staged);
    var e :| e in txn.staged && GroupOf(e) == g;
    FilterMember(txn.staged, g, e);
    forall e | e in Filter(txn.staged, g) ensures e in events + txn.staged && GroupOf(e) == g {
      FilterMember(txn.staged, g, e);
    }
  }

  lemma FilteredId(es: seq<Event>, g: GroupKey, x: nat) returns (e: Event)
    requires x in Ids(Filter(es, g))
    ensures e in es && GroupOf(e) == g && e.id == x
  {
    var i := SharedId(Filter(es, g), x);
    e := Filter(es, g)[i];
    FilterMember(es, g, e);
  }

  lemma NewIdIsNew(events: seq<Event>, staged: seq<Event>, e: Event)
    requires Good(events + staged) && e in staged
    ensures e.id !in Ids(events)
  {
    var b :| 0 <= b < |staged| && staged[b] == e;
    var all := events + staged;
    assert all[|events| + b] == e;
    forall a | 0 <= a < |events| ensures events[a].id != e.id {
      assert all[a] == events[a];
    }
  }

  lemma SubsetIds(part: seq<Event>, all: seq<Event>)
    requires forall e :: e in part ==> e in all
    ensures Ids(part) <= Ids(all)
  {
    forall x | x in Ids(part) ensures x in Ids(all) {
      var i := SharedId(part, x);
      assert part[i] in all;
      var j :| 0 <= j < |all| && all[j] == part[i];
    }
  }

  lemma NewReceiptUnshared(events: seq<Event>, txn: Txn, i: nat, prior: Receipt, now: int)
    requires Good(events + txn.staged) && i < |GroupKeys(txn.staged)|
    requires forall e :: e in prior.events ==> e in events
    ensures var g := GroupKeys(txn.staged)[i];
            var r := NewReceipt(g, Filter(txn.staged, g), txn.config, now);
            Unshared(r, prior) && Unshared(prior, r)
  {
    hide Good;
    var g := GroupKeys(txn.staged)[i];
    SubsetIds(prior.events, events);
    forall x | x in Ids(Filter(txn.staged, g)) ensures x !in Ids(prior.events) {
      var e := FilteredId(txn.staged, g, x);
      NewIdIsNew(events, txn.staged, e);
    }
  }

  lemma NewReceiptsUnshared(events: seq<Event>, txn: Txn, i: nat, j: nat, now: int)
    requires Good(events + txn.staged) && i < |GroupKeys(txn.staged)| && j < |GroupKeys(txn.staged)| && i != j
    ensures var keys := GroupKeys(txn.staged);
            Unshared(NewReceipt(keys[i], Filter(txn.staged, keys[i]), txn.config, now),
                     NewReceipt(keys[j], Filter(txn.staged, keys[j]), txn.config, now))
  {
    hide Good;
    var keys := GroupKeys(txn.staged);
    GroupKeysCover(txn.staged);
    if x :| x in Ids(Filter(txn.staged, keys[i])) && x in Ids(Filter(txn.staged, keys[j])) {
      var e := FilteredId(txn.staged, keys[i], x);
      var f := FilteredId(txn.staged, keys[j], x);
      SameIdSameEvent(events, txn.staged, e, f);
    }
  }

  lemma SameIdSameEvent(events: seq<Event>, staged: seq<Event>, e: Event, f: Event)
    requires Good(events + staged) && e in staged && f in staged && e.id == f.id
    ensures e == f
  {
    var a :| 0 <= a < |staged| && staged[a] == e;
    var b :| 0 <= b < |staged| && staged[b] == f;
    var all := events + staged;
    assert all[|events| + a] == e && all[|events| + b] == f;
  }

  lemma CommitReceiptsKeep(s: Sys, t: nat, ids: seq<nat>, now: int)
    requires LogInv(s.db.events, s.txns)
    requires ReceiptsInv(s.db.events, s.db.receipts, s.jobs, s.db.projected)
    ensures var s' := Commit(s, t, ids, now);
            ReceiptsInv(s'.db.events, s'.db.receipts, s'.jobs, s'.db.projected)
  {
    if CanCommit(s, t) && !Oversize(s.txns[t].staged) && |ids| == |GroupKeys(s.txns[t].staged)| && UsableIds(s.db.receipts, ids) {
      var txn := s.txns[t];
      assert TxnOk(s.db.events, txn);
      AcceptedReceipts(s.db.events, txn, s.db.receipts, s.jobs, s.db.projected, ids, now);
    }
  }

  lemma AcceptedReceipts(events: seq<Event>, txn: Txn, receipts: map<nat, Receipt>, jobs: map<nat, Job>,
                         projected: set<(nat, nat)>, ids: seq<nat>, now: int)
    requires Good(events + txn.staged) && ReceiptsInv(events, receipts, jobs, projected)
    requires |ids| == |GroupKeys(txn.staged)| && UsableIds(receipts, ids)
    ensures ReceiptsInv(events + txn.staged, AddReceipts(receipts, ids, txn.staged, txn.config, now, |ids|), jobs, projected)
  {
    var all := AddReceipts(receipts, ids, txn.staged, txn.config, now, |ids|);
    AddReceiptsLookup(receipts, ids, txn.staged, txn.config, now, |ids|);
    forall r | r in all ensures ReceiptOk(all[r], events + txn.staged, projected) {
      if r in receipts {
        assert ReceiptOk(receipts[r], events, projected);
      } else {
        var i :| 0 <= i < |ids| && r == ids[i];
        NewReceiptOk(events, txn, i, now, projected);
      }
    }
    forall e | e in events + txn.staged ensures InSomeReceipt(all, e) {
      if e in events {
        assert InSomeReceipt(receipts, e);
        var r :| r in receipts && e in receipts[r].events;
        assert r in all && e in all[r].events;
      } else {
        GroupKeysCover(txn.staged);
        var i :| 0 <= i < |ids| && GroupKeys(txn.staged)[i] == GroupOf(e);
        FilterMember(txn.staged, GroupOf(e), e);
        assert e in all[ids[i]].events;
      }
    }
    forall r, q | r in all && q in all && r != q ensures Unshared(all[r], all[q]) {
      AcceptedUnshared(events, txn, receipts, jobs, projected, ids, now, r, q);
    }
  }

  lemma AcceptedUnshared(events: seq<Event>, txn: Txn, receipts: map<nat, Receipt>, jobs: map<nat, Job>,
                         projected: set<(nat, nat)>, ids: seq<nat>, now: int, r: nat, q: nat)
    requires Good(events + txn.staged) && ReceiptsInv(events, receipts, jobs, projected)
    requires |ids| == |GroupKeys(txn.staged)| && UsableIds(receipts, ids) && r != q
    requires var all := AddReceipts(receipts, ids, txn.staged, txn.config, now, |ids|); r in all && q in all
    ensures var all := AddReceipts(receipts, ids, txn.staged, txn.config, now, |ids|); Unshared(all[r], all[q])
  {
    AddReceiptsLookup(receipts, ids, txn.staged, txn.config, now, |ids|);
    if r in receipts && q in receipts {
      assert Unshared(receipts[r], receipts[q]);
    } else if r in receipts {
      var j :| 0 <= j < |ids| && q == ids[j];
      assert ReceiptOk(receipts[r], events, projected);
      NewReceiptUnshared(events, txn, j, receipts[r], now);
    } else if q in receipts {
      var i :| 0 <= i < |ids| && r == ids[i];
      assert ReceiptOk(receipts[q], events, projected);
      NewReceiptUnshared(events, txn, i, receipts[q], now);
    } else {
      var i :| 0 <= i < |ids| && r == ids[i];
      var j :| 0 <= j < |ids| && q == ids[j];
      NewReceiptsUnshared(events, txn, i, j, now);
    }
  }
}
