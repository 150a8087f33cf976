/**
 * Who has taken responsibility for an event: the exact account of projected and dead-lettered events,
 * and the dead-letter table with its retriers.
 */
module IngestHandover {
  import opened Prelude
  import Dlq = ProjectionDlq
  import opened IngestPlane
  import opened IngestLog
  import opened IngestReceipts

  function Firsts(pairs: set<(nat, nat)>): set<nat> { set p | p in pairs :: p.0 }

  /** Events that were projected under some version or have a dead-letter row. */
  ghost function Handled(projected: set<(nat, nat)>, dlq: Dlq.Table): set<nat> {
    Firsts(projected) + Dlq.EventsOf(dlq)
  }

  predicate Accounted(r: Receipt) { r.status.Completed? || r.failures > 0 }

  ghost predicate ReceiptHandover(r: Receipt, handled: set<nat>, swept: set<nat>) {
    forall x :: x in Ids(r.events) ==> (x in handled <==> x in swept || Accounted(r))
  }

  /** An event is handled exactly when a projector page or a transaction of its own receipt took it. */
  ghost predicate HandoverInv(events: seq<Event>, receipts: map<nat, Receipt>, handled: set<nat>, swept: set<nat>) {
    handled <= Ids(events) && forall r :: r in receipts ==> ReceiptHandover(receipts[r], handled, swept)
  }

  lemma FirstsOfPairs(projected: set<(nat, nat)>, es: seq<Event>, version: nat)
    ensures Firsts(projected + Pairs(es, version)) == Firsts(projected) + Ids(es)
  {
    forall x | x in Firsts(projected) + Ids(es) ensures x in Firsts(projected + Pairs(es, version)) {
      if x in Firsts(projected) {
        var p :| p in projected && p.0 == x;
        assert p in projected + Pairs(es, version);
      } else {
        var i :| 0 <= i < |es| && es[i].id == x;
        assert (es[i].id, version) in projected + Pairs(es, version);
      }
    }
  }

  lemma EventsInKeys(lane: Lane, es: seq<Event>, version: nat)
    ensures Dlq.EventsIn(DlqKeys(lane, es, version)) == Ids(es)
  {
    var keys := DlqKeys(lane, es, version);
    assert forall i :: 0 <= i < |es| ==> keys[i].event == es[i].id;
    forall x | x in Ids(es) ensures x in Dlq.EventsIn(keys) {
      var i :| 0 <= i < |es| && es[i].id == x;
      assert keys[i].event == x;
    }
  }

  /** A committed transaction of one receipt takes exactly that receipt's events. */
  lemma ReceiptTakes(events: seq<Event>, receipts: map<nat, Receipt>, jobs: map<nat, Job>, projected: set<(nat, nat)>,
                     handled: set<nat>, swept: set<nat>, id: nat, r': Receipt)
    requires ReceiptsInv(events, receipts, jobs, projected) && HandoverInv(events, receipts, handled, swept)
    requires id in receipts && r'.events == receipts[id].events && Accounted(r')
    ensures HandoverInv(events, receipts[id := r'], handled + Ids(r'.events), swept)
  {
    var receipts' := receipts[id := r'];
    assert ReceiptOk(receipts[id], events, projected);
    forall x | x in Ids(r'.events) ensures x in Ids(events) {
      var i := SharedId(r'.events, x);
      assert r'.events[i] in events;
      var j :| 0 <= j < |events| && events[j] == r'.events[i];
    }
    forall q | q in receipts' ensures ReceiptHandover(receipts'[q], handled + Ids(r'.events), swept) {
      if q != id { assert Unshared(receipts[q], receipts[id]) && ReceiptHandover(receipts[q], handled, swept); }
    }
  }

  /** A committed page takes exactly its events. */
  lemma PageTakes(events: seq<Event>, receipts: map<nat, Receipt>, handled: set<nat>, swept: set<nat>, page: set<nat>)
    requires HandoverInv(events, receipts, handled, swept) && page <= Ids(events)
    ensures HandoverInv(events, receipts, handled + page, swept + page)
  {}

  lemma AcceptedHandover(events: seq<Event>, txn: Txn, receipts: map<nat, Receipt>, handled: set<nat>, swept: set<nat>,
                         ids: seq<nat>, now: int)
    requires Good(events + txn.staged) && HandoverInv(events, receipts, handled, swept) && swept <= Ids(events)
    requires |ids| == |GroupKeys(txn.staged)| && UsableIds(receipts, ids)
    ensures HandoverInv(events + txn.staged, AddReceipts(receipts, ids, txn.staged, txn.config, now, |ids|), handled, swept)
  {
    var all := AddReceipts(receipts, ids, txn.staged, txn.config, now, |ids|);
    AddReceiptsLookup(receipts, ids, txn.staged, txn.config, now, |ids|);
    forall x | x in Ids(events) ensures x in Ids(events + txn.staged) {
      var i := SharedId(events, x);
      assert (events + txn.staged)[i].id == x;
    }
    forall r | r in all ensures ReceiptHandover(all[r], handled, swept) {
      if r in receipts {
        assert ReceiptHandover(receipts[r], handled, swept);
      } else {
        var k :| 0 <= k < |ids| && r == ids[k];
        forall x | x in Ids(all[r].events) ensures x !in Ids(events) {
          var e := FilteredId(txn.staged, GroupKeys(txn.staged)[k], x);
          NewIdIsNew(events, txn.staged, e);
        }
      }
    }
  }

  // ---- Dead letters -------------------------------------------------------------------------

  ghost predicate RetryOk(dlq: Dlq.Table, projected: set<(nat, nat)>, rt: Retry) {
    && rt.row < |dlq| && dlq[rt.row].key == rt.key && rt.attempts <= dlq[rt.row].attempts
    && (rt.projected ==> (rt.key.event, rt.key.version) in projected)
  }

  ghost predicate RowOk(row: Dlq.Row, projected: set<(nat, nat)>) {
    row.resolved ==> (row.key.event, row.key.version) in projected && row.lockedBy.None?
  }

  /** One open row per key, resolved only once projected under the row's own version. */
  ghost predicate DlqInv(dlq: Dlq.Table, projected: set<(nat, nat)>, retries: map<nat, Retry>) {
    && Dlq.Sound(dlq)
    && (forall i :: 0 <= i < |dlq| ==> RowOk(dlq[i], projected))
    && (forall o :: o in retries ==> RetryOk(dlq, projected, retries[o]))
  }

  lemma GrowthKeepsRetries(dlq: Dlq.Table, dlq': Dlq.Table, projected: set<(nat, nat)>, projected': set<(nat, nat)>, retries: map<nat, Retry>)
    requires DlqInv(dlq, projected, retries) && Dlq.Grows(dlq, dlq') && projected <= projected'
    ensures forall o :: o in retries ==> RetryOk(dlq', projected', retries[o])
  {}

  lemma EnqueueKeepsDlq(dlq: Dlq.Table, projected: set<(nat, nat)>, retries: map<nat, Retry>,
                        lane: Lane, es: seq<Event>, version: nat, now: int)
    requires DlqInv(dlq, projected, retries)
    ensures var dlq' := Dlq.EnqueueAll(dlq, DlqKeys(lane, es, version), now);
            DlqInv(dlq', projected, retries) && Handled(projected, dlq') == Handled(projected, dlq) + Ids(es)
  {
    var keys := DlqKeys(lane, es, version);
    var dlq' := Dlq.EnqueueAll(dlq, keys, now);
    Dlq.EnqueueAllKeeps(dlq, keys, now);
    EventsInKeys(lane, es, version);
    GrowthKeepsRetries(dlq, dlq', projected, projected, retries);
    forall i | 0 <= i < |dlq'| ensures RowOk(dlq'[i], projected) {
      if i < |dlq| { assert RowOk(dlq[i], projected); }
    }
  }

  lemma ResolveKeepsDlq(dlq: Dlq.Table, projected: set<(nat, nat)>, retries: map<nat, Retry>,
                        lane: Lane, es: seq<Event>, version: nat, now: int)
    requires DlqInv(dlq, projected, retries)
    ensures var dlq' := Dlq.ResolveAll(dlq, KeySet(DlqKeys(lane, es, version)), now);
            var projected' := projected + Pairs(es, version);
            DlqInv(dlq', projected', retries) && Handled(projected', dlq') == Handled(projected, dlq) + Ids(es)
  {
    var keys := KeySet(DlqKeys(lane, es, version));
    var dlq' := Dlq.ResolveAll(dlq, keys, now);
    var projected' := projected + Pairs(es, version);
    Dlq.ResolveAllKeeps(dlq, keys, now);
    FirstsOfPairs(projected, es, version);
    GrowthKeepsRetries(dlq, dlq', projected, projected', retries);
    forall i | 0 <= i < |dlq'| ensures RowOk(dlq'[i], projected') {
      assert RowOk(dlq[i], projected);
      if dlq[i].key in keys {
        var j :| 0 <= j < |es| && DlqKeys(lane, es, version)[j] == dlq[i].key;
        assert (es[j].id, version) in Pairs(es, version);
      }
    }
  }

  lemma RowUpdateKeepsDlq(dlq: Dlq.Table, projected: set<(nat, nat)>, retries: map<nat, Retry>, i: nat, row: Dlq.Row)
    requires DlqInv(dlq, projected, retries) && i < |dlq| && RowOk(row, projected)
    requires row.key == dlq[i].key && row.maxAttempts == dlq[i].maxAttempts
    requires dlq[i].attempts <= row.attempts <= row.maxAttempts
    requires dlq[i].resolved ==> row.resolved
    ensures DlqInv(dlq[i := row], projected, retries)
    ensures Handled(projected, dlq[i := row]) == Handled(projected, dlq)
  {
    Dlq.UpdateRowKeeps(dlq, i, row);
    GrowthKeepsRetries(dlq, dlq[i := row], projected, projected, retries);
  }
}
