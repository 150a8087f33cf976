/**
 * What is in the result table: over any run it holds exactly what the committed transactions wrote, an event counts as
 * projected iff such a transaction ran, and no row names another tenant's event.
 */
module IngestResults {
  import opened Prelude
  import Dlq = ProjectionDlq
  import Results = StreamResults
  import opened IngestPlane
  import opened IngestLog
  import opened IngestCursor
  import opened IngestReceipts
  import opened IngestHandover
  import opened IngestRuns
  import opened IngestSteps
  import opened IngestTheorems

  // ---- One transaction ----------------------------------------------------------------------

  /** The batch a step commits in state s, with the version, tenant and events it is bound to. */
  ghost function WriteOf(s: Sys, step: Step): Option<Results.Batch> {
    match step
    case SucceedStep(w, _, rows) =>
      if !Current(s, w) then None
      else
        var r := s.db.receipts[s.jobs[w].receipt];
        IfInScope(rows, Results.Scope(r.version, {r.group.tenant}, Ids(r.events), Ids(r.events)))
    case SweepOkStep(lane, _, rows) =>
      if lane !in s.sweeps || s.sweeps[lane].page == [] then None
      else
        var sw := s.sweeps[lane];
        IfInScope(rows, Results.Scope(sw.version, {lane.tenant}, Ids(sw.page), Ids(sw.page)))
    case RetryProjectStep(o, rows) =>
      if o !in s.retries then None
      else
        var key := s.retries[o].key;
        IfInScope(rows, Results.Scope(key.version, {key.lane.tenant}, {key.event}, {key.event}))
    case _ => None
  }

  /** Every row with a tenant names the tenant of the scope, and an event of it if it names any. */
  predicate Bound(rows: seq<Results.Row>, scope: Results.Scope) {
    forall i :: 0 <= i < |rows| && rows[i].tenant.Some? ==>
      && (scope.tenants == {} || rows[i].tenant.value in scope.tenants)
      && (rows[i].source.Some? ==> scope.events == {} || rows[i].source.value in scope.events)
  }

  function IfInScope(rows: seq<Results.Row>, scope: Results.Scope): Option<Results.Batch> {
    if Bound(rows, scope) then Some(Results.Batch(rows, scope)) else None
  }

  /** Which (event, version) pairs are projected after batch b. */
  ghost predicate ProjectedBy(p: set<(nat, nat)>, p': set<(nat, nat)>, b: Results.Batch) {
    forall e, v :: (e, v) in p' <==> (e, v) in p || (e in b.scope.events && v == b.scope.version)
  }

  lemma BoundIsInScope(rows: seq<Results.Row>, scope: Results.Scope)
    ensures Bound(rows, scope) <==> Results.InScope(rows, scope)
  {}

  lemma PairsOfIds(p: set<(nat, nat)>, es: seq<Event>, version: nat, b: Results.Batch)
    requires b.scope.events == Ids(es) && b.scope.version == version
    ensures ProjectedBy(p, p + Pairs(es, version), b)
  {
    forall e, v ensures (e, v) in p + Pairs(es, version) <==> (e, v) in p || (e in Ids(es) && v == version) {
      if e in Ids(es) && v == version {
        var i := SharedId(es, e);
        assert (es[i].id, version) in Pairs(es, version);
      }
    }
  }

  /** The step writes its batch, in full, and counts exactly its events as projected. */
  ghost predicate Writes(s: Sys, s': Sys, b: Results.Batch) {
    Results.Wrote(s.db.results, s'.db.results, b.rows, b.scope) && ProjectedBy(s.db.projected, s'.db.projected, b)
  }

  lemma SuccessWrites(s: Sys, w: nat, now: int, rows: seq<Results.Row>)
    ensures var b := WriteOf(s, SucceedStep(w, now, rows)); var s' := Succeed(s, w, now, rows);
            if b.Some? then Writes(s, s', b.value) else s' == s
  {
    hide Results.Wrote, Results.Apply, Results.InScope, Bound, ProjectedBy, Pairs, Ids, DlqKeys, KeySet, AdvanceFromMeta, Finished;
    if Current(s, w) {
      var r := s.db.receipts[s.jobs[w].receipt];
      var scope := Results.Scope(r.version, {r.group.tenant}, Ids(r.events), Ids(r.events));
      BoundIsInScope(rows, scope);
      Results.ApplyWrites(s.db.results, rows, scope);
      PairsOfIds(s.db.projected, r.events, r.version, Results.Batch(rows, scope));
    }
  }

  lemma SweepWrites(s: Sys, lane: Lane, now: int, rows: seq<Results.Row>)
    ensures var b := WriteOf(s, SweepOkStep(lane, now, rows)); var s' := SweepOk(s, lane, now, rows);
            if b.Some? then Writes(s, s', b.value) else s' == s
  {
    hide Results.Wrote, Results.Apply, Results.InScope, Bound, ProjectedBy, Pairs, Ids, DlqKeys, KeySet, Advance;
    if lane in s.sweeps && s.sweeps[lane].page != [] {
      var sw := s.sweeps[lane];
      var scope := Results.Scope(sw.version, {lane.tenant}, Ids(sw.page), Ids(sw.page));
      BoundIsInScope(rows, scope);
      Results.ApplyWrites(s.db.results, rows, scope);
      PairsOfIds(s.db.projected, sw.page, sw.version, Results.Batch(rows, scope));
    }
  }

  lemma RetryWrites(s: Sys, o: nat, rows: seq<Results.Row>)
    ensures var b := WriteOf(s, RetryProjectStep(o, rows)); var s' := RetryProject(s, o, rows);
            if b.Some? then Writes(s, s', b.value) else s' == s
  {
    hide Results.Wrote, Results.Apply, Results.InScope, Bound;
    if o in s.retries {
      var key := s.retries[o].key;
      var scope := Results.Scope(key.version, {key.lane.tenant}, {key.event}, {key.event});
      BoundIsInScope(rows, scope);
      Results.ApplyWrites(s.db.results, rows, scope);
    }
  }

  /** The steps that write no results. */
  predicate LeavesResults(step: Step) {
    !step.SucceedStep? && !step.SweepOkStep? && !step.RetryProjectStep?
  }

  lemma ResultsStay(s: Sys, step: Step)
    requires LeavesResults(step)
    ensures Next(s, step).db.results == s.db.results && Next(s, step).db.projected == s.db.projected
  {
    hide Begin, Fence, Stage, SweepStart, DlqKeys, Aborted, Claimable, Claimed, Woken, Recovered, Oversize, Advance;
    if Drafts(step) { DraftsLeaveTables(s, step); }
  }

  /** Every step either writes its whole batch and counts its events as projected, or leaves results and projections alone. */
  lemma StepWrites(s: Sys, step: Step)
    ensures var b := WriteOf(s, step); var s' := Next(s, step);
            if b.Some? then Writes(s, s', b.value)
            else s'.db.results == s.db.results && s'.db.projected == s.db.projected
  {
    hide Writes, Begin, Fence, Stage, Commit, Wake, Recover, Claim, Heartbeat, Succeed, Fail;
    hide SweepStart, SweepOk, SweepFail, RetryTake, RetryProject, RetryResolve, RetryReschedule;
    match step
    case SucceedStep(w, now, rows) => SuccessWrites(s, w, now, rows);
    case SweepOkStep(lane, now, rows) => SweepWrites(s, lane, now, rows);
    case RetryProjectStep(o, rows) => RetryWrites(s, o, rows);
    case _ => ResultsStay(s, step);
  }

  // ---- Runs ---------------------------------------------------------------------------------

  /** Step n of the run commits batch b. */
  ghost predicate CommitsAt(steps: seq<Step>, n: nat, b: Results.Batch) {
    n < |steps| && WriteOf(Run(Empty, steps[..n]), steps[n]) == Some(b)
  }

  lemma CommitsEarlier(steps: seq<Step>, n: nat, b: Results.Batch)
    requires steps != [] && n < |steps| - 1
    ensures CommitsAt(steps[..|steps| - 1], n, b) <==> CommitsAt(steps, n, b)
  {
    assert steps[..|steps| - 1][..n] == steps[..n];
  }

  ghost predicate ProjectedAt(steps: seq<Step>, n: nat, b: Results.Batch, event: nat, version: nat) {
    CommitsAt(steps, n, b) && event in b.scope.events && version == b.scope.version
  }

  /**
   * An event counts as projected under a version iff a transaction bound to it and to that version has committed; and
   * every such transaction wrote all of its rows.
   */
  lemma {:induction false} ProjectedExactlyWhenWritten(steps: seq<Step>, event: nat, version: nat)
    ensures (event, version) in Run(Empty, steps).db.projected <==>
            exists n: nat, b :: ProjectedAt(steps, n, b, event, version)
    decreases |steps|
  {
    hide Next, WriteOf, Results.Wrote;
    if steps != [] {
      var n := |steps| - 1;
      var s := Run(Empty, steps[..n]);
      ProjectedExactlyWhenWritten(steps[..n], event, version);
      StepWrites(s, steps[n]);
      forall m: nat, b | m < n ensures ProjectedAt(steps[..n], m, b, event, version) <==> ProjectedAt(steps, m, b, event, version) {
        CommitsEarlier(steps, m, b);
      }
      if (event, version) in s.db.projected {
        var m: nat, b :| ProjectedAt(steps[..n], m, b, event, version);
        assert ProjectedAt(steps, m, b, event, version);
      } else if WriteOf(s, steps[n]).Some? && event in WriteOf(s, steps[n]).value.scope.events
                && version == WriteOf(s, steps[n]).value.scope.version {
        assert ProjectedAt(steps, n, WriteOf(s, steps[n]).value, event, version);
      }
    }
  }

  /** Whatever a step commits is in the table right after it. */
  lemma CommittedRowsAreWritten(steps: seq<Step>, n: nat, b: Results.Batch)
    requires CommitsAt(steps, n, b)
    ensures Results.Wrote(Run(Empty, steps[..n]).db.results, Run(Empty, steps[..n + 1]).db.results, b.rows, b.scope)
  {
    hide Next, WriteOf;
    StepWrites(Run(Empty, steps[..n]), steps[n]);
    assert steps[..n + 1][..n] == steps[..n];
  }

  /** Row i of batch b, committed at step n, is the last one ever written under key k. */
  ghost predicate LastWrite(steps: seq<Step>, n: nat, b: Results.Batch, i: nat, k: Results.ResultKey) {
    && CommitsAt(steps, n, b) && i < |b.rows|
    && Results.IsLast(b.rows, b.scope, i) && Results.KeyOf(b.rows[i], b.scope) == k
    && forall m: nat, c :: n < m && CommitsAt(steps, m, c) ==> !Results.Names(c.rows, c.scope, k)
  }

  lemma LastOfKey(rows: seq<Results.Row>, scope: Results.Scope, k: Results.ResultKey) returns (i: nat)
    requires Results.Names(rows, scope, k)
    ensures Results.IsLast(rows, scope, i) && Results.KeyOf(rows[i], scope) == k
    decreases |rows|
  {
    var j :| 0 <= j < |rows| && rows[j].tenant.Some? && Results.KeyOf(rows[j], scope) == k;
    i := j;
    var m := j + 1;
    while m < |rows|
      invariant 0 <= i < m <= |rows| && rows[i].tenant.Some? && Results.KeyOf(rows[i], scope) == k
      invariant forall x :: i < x < m && rows[x].tenant.Some? ==> Results.KeyOf(rows[x], scope) != k
    {
      if rows[m].tenant.Some? && Results.KeyOf(rows[m], scope) == k { i := m; }
      m := m + 1;
    }
  }

  lemma LastWriteStays(steps: seq<Step>, n: nat, b: Results.Batch, i: nat, k: Results.ResultKey)
    requires steps != [] && LastWrite(steps[..|steps| - 1], n, b, i, k)
    requires forall c :: CommitsAt(steps, |steps| - 1, c) ==> !Results.Names(c.rows, c.scope, k)
    ensures LastWrite(steps, n, b, i, k)
  {
    hide CommitsAt, Results.Names, Results.IsLast, Results.KeyOf;
    CommitsBefore(steps[..|steps| - 1], n, b);
    CommitsEarlier(steps, n, b);
    forall m: nat, c | n < m && CommitsAt(steps, m, c) ensures !Results.Names(c.rows, c.scope, k) {
      CommitsBefore(steps, m, c);
      if m < |steps| - 1 { CommitsEarlier(steps, m, c); }
    }
  }

  lemma CommitsBefore(steps: seq<Step>, n: nat, b: Results.Batch)
    requires CommitsAt(steps, n, b)
    ensures n < |steps|
  {}

  /** The table holds exactly the keys ever written, each with what the last row written under it said. */
  lemma {:induction false} ResultsAreTheLastWrites(steps: seq<Step>, k: Results.ResultKey)
    ensures k in Run(Empty, steps).db.results ==>
              exists n: nat, b, i: nat :: LastWrite(steps, n, b, i, k) && Results.Says(Run(Empty, steps).db.results[k], b.rows[i])
    ensures k !in Run(Empty, steps).db.results ==>
              forall n: nat, b :: CommitsAt(steps, n, b) ==> !Results.Names(b.rows, b.scope, k)
    decreases |steps|
  {
    hide Next, WriteOf, Results.Names, Results.IsLast, Results.KeyOf, Results.Says, ProjectedBy;
    if steps != [] {
      var n := |steps| - 1;
      var s := Run(Empty, steps[..n]);
      ResultsAreTheLastWrites(steps[..n], k);
      StepWrites(s, steps[n]);
      if WriteOf(s, steps[n]).Some? && Results.Names(WriteOf(s, steps[n]).value.rows, WriteOf(s, steps[n]).value.scope, k) {
        var b := WriteOf(s, steps[n]).value;
        var i := LastOfKey(b.rows, b.scope, k);
        OnlyLast(steps, b, i, k);
      } else if k in s.db.results {
        var m: nat, b, i: nat :| LastWrite(steps[..n], m, b, i, k) && Results.Says(s.db.results[k], b.rows[i]);
        LastWriteStays(steps, m, b, i, k);
      } else {
        forall m: nat, b | CommitsAt(steps, m, b) ensures !Results.Names(b.rows, b.scope, k) {
          if m < n { CommitsEarlier(steps, m, b); }
        }
      }
    }
  }

  lemma OnlyLast(steps: seq<Step>, b: Results.Batch, i: nat, k: Results.ResultKey)
    requires steps != [] && WriteOf(Run(Empty, steps[..|steps| - 1]), steps[|steps| - 1]) == Some(b)
    requires Results.IsLast(b.rows, b.scope, i) && Results.KeyOf(b.rows[i], b.scope) == k
    ensures LastWrite(steps, |steps| - 1, b, i, k)
  {
    hide Results.Names, WriteOf, Run;
  }

  // ---- Scope --------------------------------------------------------------------------------

  /** The id names an event of this tenant. */
  ghost predicate EventOf(events: seq<Event>, tenant: nat, id: nat) {
    exists e :: e in events && e.id == id && e.tenant == tenant
  }

  /** Dead letters name events of their own lane's tenant. */
  ghost predicate NameEvents(events: seq<Event>, dlq: Dlq.Table) {
    forall i :: 0 <= i < |dlq| ==> EventOf(events, dlq[i].key.lane.tenant, dlq[i].key.event)
  }

  ghost predicate LettersNameEvents(db: Db) { NameEvents(db.events, db.dlq) }

  lemma KeysNameEvents(events: seq<Event>, lane: Lane, es: seq<Event>, version: nat, key: Dlq.Key)
    requires forall i :: 0 <= i < |es| ==> es[i] in events && es[i].tenant == lane.tenant
    requires key in DlqKeys(lane, es, version)
    ensures EventOf(events, key.lane.tenant, key.event)
  {
    var i :| 0 <= i < |es| && DlqKeys(lane, es, version)[i] == key;
    assert es[i] in events && es[i].id == key.event;
  }

  lemma EnqueuedNameEvents(events: seq<Event>, dlq: Dlq.Table, lane: Lane, es: seq<Event>, version: nat, now: int)
    requires Dlq.Sound(dlq) && NameEvents(events, dlq)
    requires forall i :: 0 <= i < |es| ==> es[i] in events && es[i].tenant == lane.tenant
    ensures NameEvents(events, Dlq.EnqueueAll(dlq, DlqKeys(lane, es, version), now))
  {
    hide EventOf, DlqKeys;
    var keys := DlqKeys(lane, es, version);
    Dlq.EnqueueAllKeeps(dlq, keys, now);
    var t := Dlq.EnqueueAll(dlq, keys, now);
    forall i | 0 <= i < |t| ensures EventOf(events, t[i].key.lane.tenant, t[i].key.event) {
      if i >= |dlq| { KeysNameEvents(events, lane, es, version, t[i].key); }
    }
  }

  lemma ReceiptInLane(s: Sys, r: nat)
    requires Inv(s) && r in s.db.receipts
    ensures forall i :: 0 <= i < |s.db.receipts[r].events| ==>
              s.db.receipts[r].events[i] in s.db.events && s.db.receipts[r].events[i].tenant == s.db.receipts[r].group.tenant
  {
    LaneOfReceipt(s.db.receipts[r], s.db.events, s.db.projected);
  }

  lemma FailLetters(s: Sys, w: nat, now: int)
    requires Inv(s) && LettersNameEvents(s.db)
    ensures LettersNameEvents(Fail(s, w, now).db)
  {
    hide Inv, NameEvents, Aborted, Dlq.Sound, HeldRowsOpen;
    if Current(s, w) {
      var r := s.db.receipts[s.jobs[w].receipt];
      HeldOpen(s);
      ReceiptInLane(s, s.jobs[w].receipt);
      EnqueuedNameEvents(s.db.events, s.db.dlq, LaneOfGroup(r.group), r.events, r.version, now);
    }
  }

  lemma SweepFailLetters(s: Sys, lane: Lane, now: int)
    requires Inv(s) && LettersNameEvents(s.db)
    ensures LettersNameEvents(SweepFail(s, lane, now).db)
  {
    hide Inv, NameEvents, Dlq.Sound, HeldRowsOpen, Advance;
    if lane in s.sweeps {
      HeldOpen(s);
      PageInLane(s, lane);
      EnqueuedNameEvents(s.db.events, s.db.dlq, lane, s.sweeps[lane].page, s.sweeps[lane].version, now);
    }
  }

  lemma PageInLane(s: Sys, lane: Lane)
    requires Inv(s) && lane in s.sweeps
    ensures forall i :: 0 <= i < |s.sweeps[lane].page| ==>
              s.sweeps[lane].page[i] in s.db.events && s.sweeps[lane].page[i].tenant == lane.tenant
  {
    assert SweepOkay(s.db.events, s.db.checkpoints, s.db.swept, lane, s.sweeps[lane]);
  }

  lemma OtherLetters(s: Sys, step: Step)
    requires Inv(s) && LettersNameEvents(s.db) && !step.FailStep? && !step.SweepFailStep?
    ensures LettersNameEvents(Next(s, step).db)
  {
    hide Inv, EventOf, Dlq.Sound, HeldRowsOpen;
    HeldOpen(s);
    TablesGrow(s, step);
    DeadLettersMove(s, step);
    NoNewLetters(s, step);
    hide Next;
    forall i | 0 <= i < |s.db.dlq| ensures EventOf(Next(s, step).db.events, s.db.dlq[i].key.lane.tenant, s.db.dlq[i].key.event) {
      StillEvent(s.db.events, Next(s, step).db.events, s.db.dlq[i].key.lane.tenant, s.db.dlq[i].key.event);
    }
  }

  lemma StillEvent(events: seq<Event>, events': seq<Event>, tenant: nat, id: nat)
    requires EventOf(events, tenant, id) && events <= events'
    ensures EventOf(events', tenant, id)
  {}

  lemma NoNewLetters(s: Sys, step: Step)
    requires !step.FailStep? && !step.SweepFailStep?
    ensures |Next(s, step).db.dlq| == |s.db.dlq|
  {
    hide Begin, Fence, Stage, SweepStart, DlqKeys, KeySet, Claimable, Oversize, Advance, RowsFit;
    if Drafts(step) { DraftsLeaveTables(s, step); }
  }

  lemma {:induction false} RunLetters(steps: seq<Step>)
    ensures LettersNameEvents(Run(Empty, steps).db)
    decreases |steps|
  {
    hide Inv, Next, LettersNameEvents;
    if steps == [] {
      EmptyLetters();
    } else {
      var n := |steps| - 1;
      RunLetters(steps[..n]);
      ReachableInv(steps[..n]);
      StepLetters(Run(Empty, steps[..n]), steps[n]);
    }
  }

  lemma EmptyLetters()
    ensures LettersNameEvents(Empty.db)
  {}

  lemma StepLetters(s: Sys, step: Step)
    requires Inv(s) && LettersNameEvents(s.db)
    ensures LettersNameEvents(Next(s, step).db)
  {
    hide Inv, LettersNameEvents, Fail, SweepFail;
    match step
    case FailStep(w, now) => FailLetters(s, w, now);
    case SweepFailStep(lane, now) => SweepFailLetters(s, lane, now);
    case _ => OtherLetters(s, step);
  }

  ghost predicate OfOneTenant(events: seq<Event>, scope: Results.Scope) {
    && |scope.tenants| == 1 && scope.events != {}
    && forall t, x :: t in scope.tenants && x in scope.events ==> EventOf(events, t, x)
  }

  lemma SuccessOfOneTenant(s: Sys, id: nat)
    requires Inv(s) && id in s.db.receipts
    ensures var r := s.db.receipts[id]; OfOneTenant(s.db.events, Results.Scope(r.version, {r.group.tenant}, Ids(r.events), Ids(r.events)))
  {
    var r := s.db.receipts[id];
    assert ReceiptOk(r, s.db.events, s.db.projected);
    hide Inv, Ids;
    IdsNameEvents(s.db.events, r.events, r.group.tenant);
  }

  lemma PageOfOneTenant(s: Sys, lane: Lane)
    requires Inv(s) && lane in s.sweeps && s.sweeps[lane].page != []
    ensures var sw := s.sweeps[lane]; OfOneTenant(s.db.events, Results.Scope(sw.version, {lane.tenant}, Ids(sw.page), Ids(sw.page)))
  {
    hide Inv, Ids;
    PageInLane(s, lane);
    IdsNameEvents(s.db.events, s.sweeps[lane].page, lane.tenant);
  }

  lemma RetryOfOneTenant(s: Sys, o: nat)
    requires Inv(s) && LettersNameEvents(s.db) && o in s.retries
    ensures var key := s.retries[o].key;
            OfOneTenant(s.db.events, Results.Scope(key.version, {key.lane.tenant}, {key.event}, {key.event}))
  {
    assert RetryOk(s.db.dlq, s.db.projected, s.retries[o]);
    assert s.db.dlq[s.retries[o].row].key == s.retries[o].key;
  }

  /** A committed batch is bound to one tenant and to accepted events of that tenant. */
  lemma WritesAreBound(s: Sys, step: Step)
    requires Inv(s) && LettersNameEvents(s.db) && WriteOf(s, step).Some?
    ensures var b := WriteOf(s, step).value; Bound(b.rows, b.scope) && OfOneTenant(s.db.events, b.scope)
  {
    hide Inv, Ids, Bound, OfOneTenant, LettersNameEvents;
    match step
    case SucceedStep(w, _, _) => SuccessOfOneTenant(s, s.jobs[w].receipt);
    case SweepOkStep(lane, _, _) => PageOfOneTenant(s, lane);
    case RetryProjectStep(o, _) => RetryOfOneTenant(s, o);
  }

  lemma IdsNameEvents(events: seq<Event>, es: seq<Event>, tenant: nat)
    requires es != [] && forall i :: 0 <= i < |es| ==> es[i] in events && es[i].tenant == tenant
    ensures Ids(es) != {} && forall x :: x in Ids(es) ==> EventOf(events, tenant, x)
  {
    assert es[0].id in Ids(es);
  }

  /** Whatever the processor returns, a source row in the table names an accepted event of the row's own tenant. */
  lemma ResultsStayInScope(steps: seq<Step>, k: Results.ResultKey)
    requires k in Run(Empty, steps).db.results && k.identity.Source?
    ensures EventOf(Run(Empty, steps).db.events, k.tenant, k.identity.event)
  {
    hide Next, WriteOf, EventOf, Inv, LettersNameEvents, Results.Says;
    ResultsAreTheLastWrites(steps, k);
    var n: nat, b, i: nat :| LastWrite(steps, n, b, i, k) && Results.Says(Run(Empty, steps).db.results[k], b.rows[i]);
    var s := Run(Empty, steps[..n]);
    ReachableInv(steps[..n]);
    RunLetters(steps[..n]);
    WritesAreBound(s, steps[n]);
    RowIsBound(b.rows, b.scope, i, k);
    RunPersists(s, steps[n..]);
    assert steps == steps[..n] + steps[n..];
    RunConcat(Empty, steps[..n], steps[n..]);
    StillEvent(s.db.events, Run(Empty, steps).db.events, k.tenant, k.identity.event);
  }

  lemma RowIsBound(rows: seq<Results.Row>, scope: Results.Scope, i: nat, k: Results.ResultKey)
    requires Bound(rows, scope) && Results.IsLast(rows, scope, i) && Results.KeyOf(rows[i], scope) == k && k.identity.Source?
    requires scope.tenants != {} && scope.events != {}
    ensures k.tenant in scope.tenants && k.identity.event in scope.events
  {}
}
