/** The statements and loops of the ingest plane over its tables, each tied to the machine's step function. */
module IngestTables {
  import opened Prelude
  import Dlq = ProjectionDlq
  import Results = StreamResults
  import opened IngestPlane
  import IngestRules

  // ---- Folds the loops compute --------------------------------------------------------------

  lemma EnqueueSnoc(t: Dlq.Table, keys: seq<Dlq.Key>, i: nat, now: int)
    requires i < |keys|
    ensures Dlq.EnqueueAll(t, keys[..i + 1], now) == Dlq.Enqueue(Dlq.EnqueueAll(t, keys[..i], now), keys[i], now)
  {
    assert keys[..i + 1][..i] == keys[..i];
  }

  lemma FilterSnoc(es: seq<Event>, i: nat, g: GroupKey)
    requires i < |es|
    ensures Filter(es[..i + 1], g) == Filter(es[..i], g) + if GroupOf(es[i]) == g then [es[i]] else []
  {
    assert es[..i + 1][..i] == es[..i];
  }

  lemma GroupKeysSnoc(es: seq<Event>, i: nat)
    requires i < |es|
    ensures var g := GroupOf(es[i]); var rest := GroupKeys(es[..i]);
            GroupKeys(es[..i + 1]) == if g in rest then rest else rest + [g]
  {
    assert es[..i + 1][..i] == es[..i];
  }

  lemma {:induction false} FilterOfUnseen(es: seq<Event>, g: GroupKey)
    requires g !in GroupKeys(es)
    ensures Filter(es, g) == []
    decreases |es|
  {
    if es != [] { FilterOfUnseen(es[..|es| - 1], g); }
  }

  lemma LatestSnoc(es: seq<Event>, i: nat)
    requires 0 < i < |es|
    ensures Latest(es[..i + 1]) == if Before(Latest(es[..i]), StampOf(es[i])) then StampOf(es[i]) else Latest(es[..i])
  {}

  /** The grouping of one request: keys in insertion order, and every event in the group of its key. */
  method GroupEvents(es: seq<Event>) returns (order: seq<GroupKey>, groups: map<GroupKey, seq<Event>>)
    ensures order == GroupKeys(es)
    ensures groups.Keys == set g | g in order
    ensures forall g :: g in groups ==> groups[g] == Filter(es, g)
  {
    order, groups := [], map[];
    for i := 0 to |es|
      invariant order == GroupKeys(es[..i])
      invariant groups.Keys == set g | g in order
      invariant forall g :: g in groups ==> groups[g] == Filter(es[..i], g)
    {
      var key := GroupOf(es[i]);
      GroupKeysSnoc(es, i);
      forall g ensures Filter(es[..i + 1], g) == Filter(es[..i], g) + if key == g then [es[i]] else [] {
        FilterSnoc(es, i, g);
      }
      if key !in groups {
        FilterOfUnseen(es[..i], key);
        order := order + [key];
        groups := groups[key := []];
      }
      groups := groups[key := groups[key] + [es[i]]];
    }
    assert es[..|es|] == es;
  }

  // ---- Accepting a request ------------------------------------------------------------------

  lemma LaneMaxSnoc(es: seq<Event>, i: nat, lane: Lane)
    requires i < |es|
    ensures var rest := LaneMax(es[..i], lane);
            LaneMax(es[..i + 1], lane) ==
            if LaneOf(es[i]) != lane then rest
            else if rest.None? then Some(es[i].at) else Some(Max(rest.value, es[i].at))
  {
    assert es[..i + 1][..i] == es[..i];
  }

  /** The visible row with the same client id, if there is one. */
  method FindExisting(visible: seq<Event>, q: Submission) returns (r: Option<nat>)
    ensures r == FindClient(visible, q)
  {
    r := None;
    for i := 0 to |visible|
      invariant r == FindClient(visible[..i], q)
    {
      assert visible[..i + 1][..i] == visible[..i];
      if visible[i].tenant == q.tenant && visible[i].clientId == q.clientId { r := Some(i); }
    }
    assert visible[..|visible|] == visible;
  }

  /** The clock, or one microsecond past the lane's newest visible event, whichever is later. */
  method NextCreatedAt(visible: seq<Event>, lane: Lane, clock: int) returns (at: int)
    ensures at == NextAt(visible, lane, clock)
  {
    var newest: Option<int> := None;
    for i := 0 to |visible|
      invariant newest == LaneMax(visible[..i], lane)
    {
      LaneMaxSnoc(visible, i, lane);
      if LaneOf(visible[i]) == lane && (newest == None || newest.value < visible[i].at) {
        newest := Some(visible[i].at);
      }
    }
    assert visible[..|visible|] == visible;
    at := if newest.Some? && newest.value + 1 > clock then newest.value + 1 else clock;
  }

  /** One open acceptance over the committed events, undisturbed by others. */
  predicate Undisturbed(s: Sys, t: nat, txn: Txn) {
    s.txns == map[t := txn] && txn.held == |txn.fences|
  }

  predicate Usable(ids: seq<nat>, used: nat, taken: set<nat>) {
    used <= |ids| && forall i :: used <= i < |ids| ==> ids[i] !in taken && forall j :: i < j < |ids| ==> ids[i] != ids[j]
  }

  /** What the statement does to an undisturbed acceptance. */
  lemma StageAlone(s: Sys, t: nat, txn: Txn, clock: int, id: nat)
    requires Undisturbed(s, t, txn) && |txn.answers| < |txn.request|
    requires id !in Ids(s.db.events) && id !in Ids(txn.staged)
    ensures var q := txn.request[|txn.answers|];
            var visible := s.db.events + txn.staged;
            var r := FindClient(visible, q);
            Stage(s, t, clock, id) ==
            if r.Some? && visible[r.value].payload != q.payload then s.(txns := map[])
            else if r.Some? then s.(txns := map[t := Recognised(txn, visible[r.value].id)])
            else s.(txns := map[t := Inserted(txn, q, id, NextAt(visible, LaneOfSubmission(q), clock))])
  {
    hide FindClient, NextAt;
    assert s.txns[t] == txn && s.txns - {t} == map[];
    assert FreshId(s, id);
  }

  function Recognised(txn: Txn, id: nat): Txn { txn.(answers := txn.answers + [Answer(id, true)]) }

  function Inserted(txn: Txn, q: Submission, id: nat, at: int): Txn {
    txn.(answers := txn.answers + [Answer(id, false)], staged := txn.staged + [Event(id, q.tenant, q.clientId, q.payload, at)])
  }

  /** Only the answers and, for a new event, the staged list grow. */
  predicate Advances(txn: Txn, txn': Txn, id: nat) {
    && txn'.request == txn.request && txn'.fences == txn.fences && txn'.held == txn.held
    && |txn'.answers| == |txn.answers| + 1
    && (txn'.staged == txn.staged
        || (txn'.staged != [] && txn'.staged[..|txn'.staged| - 1] == txn.staged && txn'.staged[|txn'.staged| - 1].id == id))
  }

  /** Inserts or recognises the next event; None means that a known client id came with another payload. */
  method InsertEvent(ghost s: Sys, t: nat, events: seq<Event>, txn: Txn, clock: int, id: nat) returns (r: Option<Txn>)
    requires Undisturbed(s, t, txn) && s.db.events == events && |txn.answers| < |txn.request|
    requires id !in Ids(events) && id !in Ids(txn.staged)
    ensures Stage(s, t, clock, id) == if r.Some? then s.(txns := map[t := r.value]) else s.(txns := map[])
    ensures r.Some? ==> Advances(txn, r.value, id)
  {
    hide Stage, FindClient, NextAt;
    StageAlone(s, t, txn, clock, id);
    var q := txn.request[|txn.answers|];
    var visible := events + txn.staged;
    var existing := FindExisting(visible, q);
    if existing.Some? {
      if visible[existing.value].payload != q.payload { return None; }
      return Some(txn.(answers := txn.answers + [Answer(visible[existing.value].id, true)]));
    }
    var at := NextCreatedAt(visible, LaneOfSubmission(q), clock);
    var e := Event(id, q.tenant, q.clientId, q.payload, at);
    return Some(txn.(answers := txn.answers + [Answer(id, false)], staged := txn.staged + [e]));
  }

  /** The whole request, event by event: a run of the machine that is ready to commit, or has rolled back. */
  method AcceptRequest(ghost s: Sys, t: nat, events: seq<Event>, start: Txn, clocks: nat -> int, ids: seq<nat>)
    returns (r: Option<Txn>, ghost steps: seq<Step>)
    requires Undisturbed(s, t, start) && s.db.events == events && start.answers == [] && start.staged == []
    requires |ids| == |start.request| && Usable(ids, 0, Ids(events))
    ensures Run(s, steps) == if r.Some? then s.(txns := map[t := r.value]) else s.(txns := map[])
    ensures r.Some? ==> CanCommit(Run(s, steps), t) && |r.value.answers| == |start.request|
  {
    hide Next, Stage;
    var txn := start;
    steps := [];
    assert Run(s, []) == s && s.(txns := map[t := txn]) == s;
    for i := 0 to |start.request|
      invariant Run(s, steps) == s.(txns := map[t := txn]) && Undisturbed(Run(s, steps), t, txn)
      invariant txn.request == start.request && txn.fences == start.fences && |txn.answers| == i
      invariant Usable(ids, i, Ids(events)) && Usable(ids, i, Ids(txn.staged))
    {
      var inserted := InsertEvent(Run(s, steps), t, events, txn, clocks(i), ids[i]);
      RunSnoc(s, steps, StageStep(t, clocks(i), ids[i]));
      NextIsStage(Run(s, steps), t, clocks(i), ids[i]);
      steps := steps + [StageStep(t, clocks(i), ids[i])];
      if inserted == None { return None, steps; }
      StillUsable(ids, i, txn.staged, inserted.value.staged);
      assert Advances(txn, inserted.value, ids[i]);
      txn := inserted.value;
    }
    return Some(txn), steps;
  }

  lemma NextIsStage(s: Sys, t: nat, clock: int, id: nat)
    ensures Next(s, StageStep(t, clock, id)) == Stage(s, t, clock, id)
  {}

  lemma StillUsable(ids: seq<nat>, i: nat, staged: seq<Event>, staged': seq<Event>)
    requires i < |ids| && Usable(ids, i, Ids(staged))
    requires staged' == staged
             || (staged' != [] && staged'[..|staged'| - 1] == staged && staged'[|staged'| - 1].id == ids[i])
    ensures Usable(ids, i + 1, Ids(staged'))
  {
    if staged' != staged {
      var n := |staged'| - 1;
      forall k | i < k < |ids| ensures ids[k] !in Ids(staged') {
        assert forall j :: 0 <= j < n ==> staged'[j] == staged[j];
        assert ids[k] !in Ids(staged);
        forall j | 0 <= j < |staged'| ensures staged'[j].id != ids[k] {
          if j < n { assert staged[j].id in Ids(staged); }
        }
      }
    }
  }

  /** The update's columns, case by case. */
  lemma WokenFields(row: Receipt, revive: bool, now: int)
    ensures var revived := row.status == Failed && revive;
            Woken(row, revive, now) ==
            if row.status == Queued || row.status == RetryScheduled || row.status == Failed then
              row.(status := if revived then Queued else row.status,
                   attempts := if revived then 0 else row.attempts,
                   nextAttemptAt := if row.status != Failed || revive then now else row.nextAttemptAt,
                   errorClass := if revived then NoError else row.errorClass)
            else row
  {}

  /** A row the claim may take. */
  predicate Candidate(receipts: map<nat, Receipt>, only: Option<set<nat>>, now: int, r: nat) {
    r in receipts && (only.None? || r in only.value) && Claimable(receipts[r], now)
  }

  predicate Oldest(receipts: map<nat, Receipt>, order: seq<nat>, only: Option<set<nat>>, now: int, k: int) {
    && 0 <= k < |order| && Candidate(receipts, only, now, order[k])
    && forall j :: 0 <= j < k ==> !Candidate(receipts, only, now, order[j])
  }

  class Tables {
    var events: seq<Event>
    var receipts: map<nat, Receipt>
    var checkpoints: map<Lane, Stamp>
    var dlq: Dlq.Table
    var results: Results.Table
    ghost var projected: set<(nat, nat)>
    ghost var swept: set<nat>

    constructor ()
      ensures Snapshot() == Empty.db
    {
      events, receipts, checkpoints, dlq, results := [], map[], map[], [], map[];
      projected, swept := {}, {};
    }

    ghost function Snapshot(): Db
      reads this
    {
      Db(events, receipts, checkpoints, dlq, results, projected, swept)
    }

    // ---- Dead letters -----------------------------------------------------------------------

    /**
     * INSERT … ON CONFLICT … WHERE resolved_at IS NULL DO UPDATE. The key has an open row afterwards, still only
     * one, and no row is lost, resolved or taken from its retrier.
     */
    method EnqueueProjectionDlq(key: Dlq.Key, now: int)
      modifies this`dlq
      ensures dlq == Dlq.Enqueue(old(dlq), key, now)
      ensures Dlq.Sound(old(dlq)) ==> Dlq.HasOpen(dlq, key) && Dlq.Enqueued(old(dlq), dlq, [key])
    {
      if Dlq.Sound(dlq) { Dlq.EnqueueKeeps(dlq, key, now); }
      var open := Dlq.FindOpen(dlq, key);
      if open.Some? {
        var row := dlq[open.value];
        dlq := dlq[open.value := row.(nextAttemptAt := if row.nextAttemptAt <= now then row.nextAttemptAt else now)];
      } else {
        dlq := dlq + [Dlq.Row(key, false, 0, Dlq.MAX_ATTEMPTS, now, None, None)];
      }
    }

    method EnqueueEvents(lane: Lane, es: seq<Event>, version: nat, now: int)
      modifies this`dlq
      ensures dlq == Dlq.EnqueueAll(old(dlq), DlqKeys(lane, es, version), now)
    {
      ghost var keys := DlqKeys(lane, es, version);
      for i := 0 to |es|
        invariant dlq == Dlq.EnqueueAll(old(dlq), keys[..i], now)
      {
        EnqueueSnoc(old(dlq), keys, i, now);
        EnqueueProjectionDlq(Dlq.Key(lane, es[i].id, version), now);
      }
      assert keys[..|es|] == keys;
    }

    /** Closes matching open rows that no live retrier holds, and counts them. */
    method ResolveProjectionDlqForEvents(lane: Lane, es: seq<Event>, version: nat, now: int) returns (closed: nat)
      modifies this`dlq
      ensures dlq == Dlq.ResolveAll(old(dlq), KeySet(DlqKeys(lane, es, version)), now)
      ensures closed == |set i | 0 <= i < |dlq| && dlq[i] != old(dlq)[i]|
    {
      ghost var keys := KeySet(DlqKeys(lane, es, version));
      var ids := set i | 0 <= i < |es| :: es[i].id;
      ghost var changed: set<nat> := {};
      closed := 0;
      for i := 0 to |dlq|
        invariant |dlq| == |old(dlq)|
        invariant forall j :: 0 <= j < |dlq| ==> dlq[j] == if j < i then Dlq.ResolveRow(old(dlq)[j], keys, now) else old(dlq)[j]
        invariant changed == (set j: nat | j < i && dlq[j] != old(dlq)[j]) && closed == |changed|
      {
        var row := dlq[i];
        KeyMatches(lane, es, version, row.key);
        if row.key.lane == lane && row.key.version == version && row.key.event in ids && !row.resolved
           && (row.lockedBy.None? || Lapsed(row.leaseExpiresAt, now)) {
          dlq := dlq[i := row.(resolved := true, lockedBy := None, leaseExpiresAt := None)];
          closed := closed + 1;
          changed := changed + {i};
        }
      }
      assert changed == set i | 0 <= i < |dlq| && dlq[i] != old(dlq)[i];
    }

    // ---- Checkpoints ------------------------------------------------------------------------

    /** The upsert moves the row only to a later (created_at, id) tuple. */
    method AdvanceCheckpoint(lane: Lane, to: Stamp)
      modifies this`checkpoints
      ensures checkpoints == Advance(old(checkpoints), lane, to)
      ensures lane in checkpoints && NotAfter(to, checkpoints[lane])
      ensures lane in old(checkpoints) ==> NotAfter(old(checkpoints)[lane], checkpoints[lane])
    {
      if lane !in checkpoints
         || to.at > checkpoints[lane].at || (to.at == checkpoints[lane].at && to.id > checkpoints[lane].id) {
        checkpoints := checkpoints[lane := to];
      }
    }

    /** Finds the latest tuple of a receipt's events, whatever their order, and advances to it. */
    method AdvanceCheckpointFromMeta(lane: Lane, es: seq<Event>)
      modifies this`checkpoints
      ensures checkpoints == AdvanceFromMeta(old(checkpoints), lane, es)
    {
      var latest: Option<Stamp> := None;
      for i := 0 to |es|
        invariant checkpoints == old(checkpoints)
        invariant i == 0 <==> latest.None?
        invariant i > 0 ==> latest.value == Latest(es[..i])
      {
        if i > 0 { LatestSnoc(es, i); }
        if latest == None || latest.value.at < es[i].at || (latest.value.at == es[i].at && latest.value.id < es[i].id) {
          latest := Some(Stamp(es[i].at, es[i].id));
        }
      }
      assert es[..|es|] == es;
      if latest.Some? {
        AdvanceCheckpoint(lane, latest.value);
      }
    }

    // ---- Receipts ---------------------------------------------------------------------------

    predicate HeldBy(id: nat, w: nat, attempts: nat)
      reads this
    {
      id in receipts && receipts[id].status.Running? && receipts[id].owner == Some(w) && receipts[id].attempts == attempts
    }

    /** A client retry expedites pending receipts and revives failed ones. */
    method WakeProcessingBatches(ids: set<nat>, revive: bool, now: int)
      modifies this`receipts
      ensures receipts == map r | r in old(receipts) :: if r in ids then Woken(old(receipts)[r], revive, now) else old(receipts)[r]
    {
      hide Woken;
      var todo := receipts.Keys;
      while todo != {}
        invariant todo <= old(receipts).Keys == receipts.Keys
        invariant forall r :: r in receipts ==>
                    receipts[r] == if r in ids && r !in todo then Woken(old(receipts)[r], revive, now) else old(receipts)[r]
        decreases |todo|
      {
        var r :| r in todo;
        todo := todo - {r};
        var row := receipts[r];
        WokenFields(row, revive, now);
        if r in ids && (row.status == Queued || row.status == RetryScheduled || row.status == Failed) {
          var revived := row.status == Failed && revive;
          receipts := receipts[r := row.(
            status := if revived then Queued else row.status,
            attempts := if revived then 0 else row.attempts,
            nextAttemptAt := if row.status != Failed || revive then now else row.nextAttemptAt,
            errorClass := if revived then NoError else row.errorClass)];
        }
      }
    }

    method RecoverExpiredProcessingLeases(now: int)
      modifies this`receipts
      ensures receipts == map r | r in old(receipts) :: Recovered(old(receipts)[r], now)
    {
      var todo := receipts.Keys;
      while todo != {}
        invariant todo <= old(receipts).Keys == receipts.Keys
        invariant forall r :: r in receipts ==> receipts[r] == if r in todo then old(receipts)[r] else Recovered(old(receipts)[r], now)
        decreases |todo|
      {
        var r :| r in todo;
        todo := todo - {r};
        var row := receipts[r];
        if row.status == Running && row.leaseExpiresAt.Some? && row.leaseExpiresAt.value <= now {
          receipts := receipts[r := row.(
            status := if row.attempts >= row.maxAttempts then Failed else RetryScheduled,
            nextAttemptAt := now, owner := None, leaseExpiresAt := None,
            errorClass := if row.errorClass == NoError then WorkerLeaseExpired else row.errorClass)];
        }
      }
    }

    /**
     * Claims the oldest claimable receipt, of the given ones if any are given; `order` lists the rows by creation.
     * Until it is released again nobody else can claim it.
     */
    method ClaimProcessingBatch(w: nat, order: seq<nat>, only: Option<set<nat>>, now: int) returns (claimed: Option<nat>)
      requires forall r :: r in receipts ==> r in order
      modifies this`receipts
      ensures claimed.None? <==> forall r :: r in old(receipts) ==> !Candidate(old(receipts), only, now, r)
      ensures claimed.None? ==> receipts == old(receipts)
      ensures claimed.Some? ==> exists k :: Oldest(old(receipts), order, only, now, k) && claimed.value == order[k]
      ensures claimed.Some? ==> receipts == old(receipts)[claimed.value := Claimed(old(receipts)[claimed.value], w, now)]
      ensures claimed.Some? ==> forall later :: !Claimable(receipts[claimed.value], later)
      ensures claimed.Some? ==>
                forall later :: Recovered(receipts[claimed.value], later) == receipts[claimed.value] <==> later < now + 300
    {
      for i := 0 to |order|
        invariant receipts == old(receipts)
        invariant forall j :: 0 <= j < i ==> !Candidate(receipts, only, now, order[j])
      {
        var r := order[i];
        if r in receipts && (only.None? || r in only.value) && Claimable(receipts[r], now) {
          assert Oldest(receipts, order, only, now, i);
          var row := receipts[r];
          receipts := receipts[r := row.(status := Running, attempts := row.attempts + 1, owner := Some(w),
                                         leaseExpiresAt := Some(now + LEASE_SECONDS), errorClass := NoError)];
          return Some(r);
        }
      }
      return None;
    }

    /**
     * Extends the lease of a claim that is still current, and then recovery releases the row exactly from the new
     * expiry on and nobody can claim it before; a claim that is no longer current changes nothing.
     */
    method HeartbeatProcessingLease(id: nat, w: nat, attempts: nat, now: int) returns (renewed: bool)
      modifies this`receipts
      ensures renewed <==> id in old(receipts) && old(receipts)[id].status.Running?
                           && old(receipts)[id].owner == Some(w) && old(receipts)[id].attempts == attempts
      ensures receipts == if renewed then old(receipts)[id := old(receipts)[id].(leaseExpiresAt := Some(now + LEASE_SECONDS))]
                          else old(receipts)
      ensures renewed ==> HeldBy(id, w, attempts)
      ensures renewed ==> forall later :: Recovered(receipts[id], later) == receipts[id] <==> later < now + 300
      ensures renewed ==> forall later :: !Claimable(receipts[id], later)
    {
      renewed := id in receipts && receipts[id].status == Running && receipts[id].owner == Some(w)
                 && receipts[id].attempts == attempts;
      if renewed {
        receipts := receipts[id := receipts[id].(leaseExpiresAt := Some(now + LEASE_SECONDS))];
      }
    }

    /** Dead letters first, the guarded receipt update last; if the guard fails the transaction rolls back. */
    method PersistProcessingFailure(id: nat, w: nat, attempts: nat, es: seq<Event>, version: nat, lane: Lane, now: int)
      returns (committed: bool)
      requires id in receipts ==>
                 es == receipts[id].events && version == receipts[id].version && lane == LaneOfGroup(receipts[id].group)
      modifies this
      ensures committed == old(HeldBy(id, w, attempts))
      ensures Snapshot() == if committed then FailureTables(old(Snapshot()), id, now) else old(Snapshot())
    {
      var savedDlq := dlq;
      EnqueueEvents(lane, es, version, now);
      committed := HeldBy(id, w, attempts);
      if committed {
        var row := receipts[id];
        receipts := receipts[id := row.(
          status := if row.attempts >= row.maxAttempts then Failed else RetryScheduled,
          nextAttemptAt := now + FailureDelay(attempts), owner := None, leaseExpiresAt := None,
          errorClass := ProcessingError, failures := row.failures + 1)];
      } else {
        dlq := savedDlq;
      }
    }

    /** Results, dead letters, checkpoint and receipt in one transaction; foreign rows or a lost lease undo all of it. */
    method CompleteClaimedBatch(id: nat, w: nat, attempts: nat, rows: seq<Results.Row>, now: int) returns (committed: bool)
      requires id in receipts
      modifies this
      ensures committed <==> old(HeldBy(id, w, attempts)) && old(RowsFit(Snapshot(), id, rows))
      ensures Snapshot() == if committed then SuccessTables(old(Snapshot()), id, now, rows) else old(Snapshot())
      ensures var r := old(receipts)[id]; var lane := Lane(r.group.tenant, r.group.workflow);
              committed ==>
                && Results.Wrote(old(results), results, rows, Results.Scope(r.version, {r.group.tenant}, Ids(r.events), Ids(r.events)))
                && IngestRules.ClosedExactly(old(dlq), dlq, lane, r.events, r.version, now)
                && IngestRules.PassedAll(old(checkpoints), checkpoints, lane, r.events)
                && receipts == old(receipts)[id := receipts[id]] && receipts[id].status.Completed?
    {
      hide Results.Wrote, IngestRules.ClosedExactly, IngestRules.PassedAll;
      IngestRules.SuccessMeans(Snapshot(), id, now, rows);
      var row := receipts[id];
      var lane := LaneOfGroup(row.group);
      var savedDlq, savedCheckpoints := dlq, checkpoints;
      var upsert := Results.UpsertStreamResults(results, rows, ScopeOf(lane, row.events, row.version));
      if !upsert.Written? { return false; }
      var closed := ResolveProjectionDlqForEvents(lane, row.events, row.version, now);
      AdvanceCheckpointFromMeta(lane, row.events);
      committed := HeldBy(id, w, attempts);
      if committed {
        results := upsert.table;
        projected := projected + Pairs(row.events, row.version);
        receipts := receipts[id := row.(status := Completed, owner := None, leaseExpiresAt := None,
                                        errorClass := NoError, successes := row.successes + 1)];
      } else {
        dlq, checkpoints := savedDlq, savedCheckpoints;
      }
    }

    // ---- Projector --------------------------------------------------------------------------

    /** Commits a page: on failure every event is handed over, on success its dead letters close; the cursor moves. */
    method CommitPage(ghost s: Sys, lane: Lane, sw: Sweep, rows: seq<Results.Row>, pathwayOk: bool, now: int)
      returns (committed: bool)
      requires s.db == Snapshot() && lane in s.sweeps && s.sweeps[lane] == sw && sw.page != []
      modifies this
      ensures committed <==> !pathwayOk || Results.InScope(rows, ScopeOf(lane, sw.page, sw.version))
      ensures Snapshot() == if pathwayOk then SweepOk(s, lane, now, rows).db else SweepFail(s, lane, now).db
      ensures committed && pathwayOk ==>
                && Results.Wrote(old(results), results, rows, Results.Scope(sw.version, {lane.tenant}, Ids(sw.page), Ids(sw.page)))
                && IngestRules.ClosedExactly(old(dlq), dlq, lane, sw.page, sw.version, now)
      ensures !pathwayOk ==> results == old(results)
    {
      hide Results.Wrote, IngestRules.ClosedExactly;
      IngestRules.ResolveCloses(dlq, lane, sw.page, sw.version, now);
      if pathwayOk {
        var upsert := Results.UpsertStreamResults(results, rows, ScopeOf(lane, sw.page, sw.version));
        if !upsert.Written? { return false; }
        results := upsert.table;
        projected := projected + Pairs(sw.page, sw.version);
        var closed := ResolveProjectionDlqForEvents(lane, sw.page, sw.version, now);
      } else {
        EnqueueEvents(lane, sw.page, sw.version, now);
      }
      var last := sw.page[|sw.page| - 1];
      AdvanceCheckpoint(lane, Stamp(last.at, last.id));
      swept := swept + Ids(sw.page);
      committed := true;
    }

    // ---- Acceptance -------------------------------------------------------------------------

    /** One receipt per group, in group order, as the acceptance transaction commits. */
    method RegisterProcessingBatches(staged: seq<Event>, ids: seq<nat>, config: map<nat, nat>, now: int)
      requires |ids| == |GroupKeys(staged)|
      modifies this
      ensures Snapshot() == old(Snapshot()).(
                events := old(events) + staged,
                receipts := AddReceipts(old(receipts), ids, staged, config, now, |ids|))
    {
      var order, groups := GroupEvents(staged);
      for i := 0 to |order|
        invariant receipts == AddReceipts(old(receipts), ids, staged, config, now, i)
        invariant Snapshot() == old(Snapshot()).(receipts := receipts)
      {
        var g := order[i];
        receipts := receipts[ids[i] :=
          Receipt(g, VersionFor(config, g.workflow), groups[g], Queued, 0, MAX_ATTEMPTS, now, None, None, NoError, 0, 0)];
      }
      events := events + staged;
    }

    // ---- Dead-letter retry ------------------------------------------------------------------

    /**
     * Takes an open, due and unexhausted row that nobody holds. It is the owner's alone until the lease runs out:
     * nobody can take it and no bulk resolution closes it; afterwards it can be taken iff attempts remain.
     */
    method TakeDlqItem(i: nat, owner: nat, now: int) returns (taken: bool)
      modifies this`dlq
      ensures taken <==> i < |old(dlq)| && Dlq.CanTake(old(dlq)[i], now)
      ensures dlq == if taken then old(dlq)[i := Dlq.Taken(old(dlq)[i], owner, now)] else old(dlq)
      ensures taken ==> forall later :: Dlq.CanTake(dlq[i], later) <==>
                          later >= now + 300 && dlq[i].attempts < dlq[i].maxAttempts
      ensures taken ==> forall keys, later :: later < now + 300 ==> Dlq.ResolveRow(dlq[i], keys, later) == dlq[i]
      ensures Dlq.Sound(old(dlq)) ==> Dlq.Sound(dlq) && Dlq.Grows(old(dlq), dlq)
    {
      taken := i < |dlq| && Dlq.CanTake(dlq[i], now);
      if taken {
        dlq := dlq[i := dlq[i].(attempts := dlq[i].attempts + 1, lockedBy := Some(owner),
                                leaseExpiresAt := Some(now + Dlq.RETRY_LEASE_SECONDS))];
      }
    }

    /** The retry's own upsert, bound to the row's tenant, event and version; it commits before the row is resolved. */
    method ProjectDlqItem(ghost s: Sys, ghost o: nat, key: Dlq.Key, rows: seq<Results.Row>) returns (written: bool)
      requires s.db == Snapshot() && o in s.retries && s.retries[o].key == key
      modifies this`results, this`projected
      ensures Snapshot() == RetryProject(s, o, rows).db
      ensures var scope := Results.Scope(key.version, {key.lane.tenant}, {key.event}, {key.event});
              if written then Results.Wrote(old(results), results, rows, scope) else results == old(results)
    {
      hide Results.Wrote;
      var upsert := Results.UpsertStreamResults(results, rows,
                                                Results.Scope(key.version, {key.lane.tenant}, {key.event}, {key.event}));
      if !upsert.Written? { return false; }
      results := upsert.table;
      projected := projected + {(key.event, key.version)};
      return true;
    }

    /**
     * Both ends of a retry are guarded by the lease owner alone, so a retrier that lost the row writes nothing and
     * one that ends it cannot end it twice. A closed row is never taken again, a rescheduled one exactly from the
     * end of the delay on, as long as attempts remain.
     */
    method FinishDlqItem(i: nat, owner: nat, attempts: nat, ok: bool, now: int) returns (written: bool)
      modifies this`dlq
      ensures written <==> i < |old(dlq)| && old(dlq)[i].lockedBy == Some(owner)
      ensures dlq == if !written then old(dlq)
                     else if ok then old(dlq)[i := Dlq.Closed(old(dlq)[i])]
                     else old(dlq)[i := Dlq.Rescheduled(old(dlq)[i], now, attempts)]
      ensures i < |dlq| ==> dlq[i].lockedBy != Some(owner)
      ensures written && ok ==> dlq[i].resolved && forall later :: !Dlq.CanTake(dlq[i], later)
      ensures written && !ok ==> forall later :: Dlq.CanTake(dlq[i], later) <==>
                later >= now + Dlq.RetryDelay(attempts) && dlq[i].attempts < dlq[i].maxAttempts && !dlq[i].resolved
      ensures Dlq.Sound(old(dlq)) ==> Dlq.Sound(dlq) && Dlq.Grows(old(dlq), dlq)
    {
      written := i < |dlq| && dlq[i].lockedBy == Some(owner);
      if written {
        if ok {
          dlq := dlq[i := dlq[i].(resolved := true, lockedBy := None, leaseExpiresAt := None)];
        } else {
          dlq := dlq[i := dlq[i].(nextAttemptAt := now + Dlq.RetryDelay(attempts), lockedBy := None, leaseExpiresAt := None)];
        }
      }
    }
  }

  lemma KeyMatches(lane: Lane, es: seq<Event>, version: nat, key: Dlq.Key)
    ensures key in KeySet(DlqKeys(lane, es, version)) <==>
            key.lane == lane && key.version == version && key.event in set i | 0 <= i < |es| :: es[i].id
  {
    var keys := DlqKeys(lane, es, version);
    if key.lane == lane && key.version == version && key.event in set i | 0 <= i < |es| :: es[i].id {
      var i :| 0 <= i < |es| && es[i].id == key.event;
      assert keys[i] == key;
    }
  }
}
