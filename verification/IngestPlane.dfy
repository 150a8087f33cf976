/**
 * The durable sealed-ingest data plane as a state machine.
 *
 * The database tables are shared; acceptance transactions, receipt workers, catch-up projectors and
 * dead-letter retriers act on them. Each label of `Step` is one atomic statement or transaction. A step
 * whose SQL guard fails leaves the state as it was, so every sequence of labels is a run.
 */
module IngestPlane {
  import opened Prelude
  import Dlq = ProjectionDlq
  import Results = StreamResults

  const LEASE_SECONDS := 300
  const MAX_ATTEMPTS := 10
  const MAX_BATCH_EVENTS := 25

  // ---- Tables -------------------------------------------------------------------------------

  /** Everything the ingest fingerprint hashes; the hash is taken to be injective. */
  datatype Payload = Payload(workflow: nat, contentType: nat, eventType: nat, body: nat)

  datatype Submission = Submission(tenant: nat, clientId: nat, payload: Payload)

  /** A committed or staged telemetry_events row. */
  datatype Event = Event(id: nat, tenant: nat, clientId: nat, payload: Payload, at: int)

  datatype GroupKey = GroupKey(workflow: nat, tenant: nat, contentType: nat, eventType: nat)

  datatype Status = Queued | Running | RetryScheduled | Completed | Failed

  datatype ErrorClass = NoError | WorkerLeaseExpired | ProcessingError

  /** `failures` and `successes` count committed transactions; the database does not store them. */
  datatype Receipt = Receipt(
    group: GroupKey, version: nat, events: seq<Event>, status: Status,
    attempts: nat, maxAttempts: nat, nextAttemptAt: int,
    owner: Option<nat>, leaseExpiresAt: Option<int>, errorClass: ErrorClass,
    failures: nat, successes: nat)

  /**
   * `projected` records (event, version) pairs whose results were written by a committed transaction, and
   * `swept` the events of committed projector pages. Both are history the database does not store.
   */
  datatype Db = Db(
    events: seq<Event>, receipts: map<nat, Receipt>, checkpoints: map<Lane, Stamp>,
    dlq: Dlq.Table, results: Results.Table, projected: set<(nat, nat)>, swept: set<nat>)

  // ---- In-flight work -----------------------------------------------------------------------

  datatype Answer = Answer(id: nat, duplicate: bool)

  /** An acceptance transaction: its sorted fences, how many it holds, and what it has inserted so far. */
  datatype Txn = Txn(
    request: seq<Submission>, config: map<nat, nat>, fences: seq<Lane>, held: nat,
    answers: seq<Answer>, staged: seq<Event>)

  /** What a receipt worker remembers of its claim. */
  datatype Job = Job(receipt: nat, attempts: nat)

  /** A projector session: the cursor it read, and the page it is processing under one contract version. */
  datatype Sweep = Sweep(from: Option<Stamp>, version: nat, page: seq<Event>)

  datatype Retry = Retry(row: nat, key: Dlq.Key, attempts: nat, projected: bool)

  datatype Sys = Sys(
    db: Db, txns: map<nat, Txn>, jobs: map<nat, Job>, sweeps: map<Lane, Sweep>, retries: map<nat, Retry>)

  const Empty := Sys(Db([], map[], map[], [], map[], {}, {}), map[], map[], map[], map[])

  // ---- Vocabulary ---------------------------------------------------------------------------

  function LaneOf(e: Event): Lane { Lane(e.tenant, e.payload.workflow) }

  function StampOf(e: Event): Stamp { Stamp(e.at, e.id) }

  function GroupOf(e: Event): GroupKey {
    GroupKey(e.payload.workflow, e.tenant, e.payload.contentType, e.payload.eventType)
  }

  function LaneOfSubmission(q: Submission): Lane { Lane(q.tenant, q.payload.workflow) }

  function GroupOfSubmission(q: Submission): GroupKey {
    GroupKey(q.payload.workflow, q.tenant, q.payload.contentType, q.payload.eventType)
  }

  function LaneOfGroup(g: GroupKey): Lane { Lane(g.tenant, g.workflow) }

  function Ids(es: seq<Event>): set<nat> { set i | 0 <= i < |es| :: es[i].id }

  function Pairs(es: seq<Event>, version: nat): set<(nat, nat)> { set i | 0 <= i < |es| :: (es[i].id, version) }

  function DlqKeys(lane: Lane, es: seq<Event>, version: nat): seq<Dlq.Key> {
    seq(|es|, i requires 0 <= i < |es| => Dlq.Key(lane, es[i].id, version))
  }

  function KeySet(keys: seq<Dlq.Key>): set<Dlq.Key> { set k | k in keys }

  function ScopeOf(lane: Lane, es: seq<Event>, version: nat): Results.Scope {
    Results.Scope(version, {lane.tenant}, Ids(es), Ids(es))
  }

  // ---- Acceptance ---------------------------------------------------------------------------

  /** Sorting the fence names fixes one total order; this is that order. */
  predicate LaneBefore(a: Lane, b: Lane) {
    a.tenant < b.tenant || (a.tenant == b.tenant && a.workflow < b.workflow)
  }

  /** The sorted, duplicate-free fence names of a request. */
  ghost predicate IsFencePlan(fences: seq<Lane>, request: seq<Submission>) {
    && (forall i, j :: 0 <= i < j < |fences| ==> LaneBefore(fences[i], fences[j]))
    && (forall i :: 0 <= i < |fences| ==>
          exists q :: 0 <= q < |request| && LaneOfSubmission(request[q]) == fences[i])
    && (forall q :: 0 <= q < |request| ==> LaneOfSubmission(request[q]) in fences)
  }

  function Held(txn: Txn): set<Lane> {
    set i | 0 <= i < txn.held && i < |txn.fences| :: txn.fences[i]
  }

  ghost predicate FenceFree(txns: map<nat, Txn>, t: nat, lane: Lane) {
    forall u :: u in txns && u != t ==> lane !in Held(txns[u])
  }

  function FindClient(es: seq<Event>, q: Submission): (r: Option<nat>)
    ensures r.Some? ==> r.value < |es| && es[r.value].tenant == q.tenant && es[r.value].clientId == q.clientId
    ensures r.None? ==>
              forall i :: 0 <= i < |es| ==> !(es[i].tenant == q.tenant && es[i].clientId == q.clientId)
    decreases |es|
  {
    if es == [] then None
    else if es[|es| - 1].tenant == q.tenant && es[|es| - 1].clientId == q.clientId then Some(|es| - 1)
    else
      var r := FindClient(es[..|es| - 1], q);
      assert forall i :: 0 <= i < |es| - 1 ==> es[i] == es[..|es| - 1][i];
      r
  }

  function LaneMax(es: seq<Event>, lane: Lane): (m: Option<int>)
    ensures forall i :: 0 <= i < |es| && LaneOf(es[i]) == lane ==> m.Some? && es[i].at <= m.value
    ensures m.Some? ==> exists i :: 0 <= i < |es| && LaneOf(es[i]) == lane && es[i].at == m.value
    decreases |es|
  {
    if es == [] then None
    else
      var rest := LaneMax(es[..|es| - 1], lane);
      var last := es[|es| - 1];
      assert forall i :: 0 <= i < |es| - 1 ==> es[i] == es[..|es| - 1][i];
      if LaneOf(last) != lane then rest
      else if rest.None? then Some(last.at)
      else Some(Max(rest.value, last.at))
  }

  /** GREATEST(clock_timestamp(), MAX(created_at) + 1 microsecond) over what the statement can see. */
  function NextAt(visible: seq<Event>, lane: Lane, clock: int): int {
    var m := LaneMax(visible, lane);
    if m.None? then clock else Max(clock, m.value + 1)
  }

  ghost predicate FreshId(s: Sys, id: nat) {
    id !in Ids(s.db.events) && forall u :: u in s.txns ==> id !in Ids(s.txns[u].staged)
  }

  /** Another open transaction has inserted the same client id, so the unique index makes this one wait. */
  ghost predicate ClientStagedElsewhere(s: Sys, t: nat, q: Submission) {
    exists u :: u in s.txns && u != t && FindClient(s.txns[u].staged, q).Some?
  }

  function Filter(es: seq<Event>, g: GroupKey): seq<Event>
    decreases |es|
  {
    if es == [] then []
    else
      Filter(es[..|es| - 1], g) + if GroupOf(es[|es| - 1]) == g then [es[|es| - 1]] else []
  }

  /** Group keys in order of first occurrence, as an insertion-ordered dictionary keeps them. */
  function GroupKeys(es: seq<Event>): seq<GroupKey>
    decreases |es|
  {
    if es == [] then []
    else
      var rest := GroupKeys(es[..|es| - 1]);
      var g := GroupOf(es[|es| - 1]);
      if g in rest then rest else rest + [g]
  }

  function Groups(es: seq<Event>): seq<seq<Event>> {
    seq(|GroupKeys(es)|, i requires 0 <= i < |GroupKeys(es)| => Filter(es, GroupKeys(es)[i]))
  }

  function VersionFor(config: map<nat, nat>, workflow: nat): nat {
    if workflow in config then config[workflow] else 1
  }

  function NewReceipt(g: GroupKey, es: seq<Event>, config: map<nat, nat>, now: int): Receipt {
    Receipt(g, VersionFor(config, g.workflow), es, Queued, 0, MAX_ATTEMPTS, now, None, None, NoError, 0, 0)
  }

  function AddReceipts(receipts: map<nat, Receipt>, ids: seq<nat>, es: seq<Event>, config: map<nat, nat>, now: int, n: nat)
    : map<nat, Receipt>
    requires n <= |ids| == |GroupKeys(es)|
  {
    if n == 0 then receipts
    else
      var g := GroupKeys(es)[n - 1];
      AddReceipts(receipts, ids, es, config, now, n - 1)[ids[n - 1] := NewReceipt(g, Filter(es, g), config, now)]
  }

  predicate UsableIds(receipts: map<nat, Receipt>, ids: seq<nat>) {
    (forall i :: 0 <= i < |ids| ==> ids[i] !in receipts) && (forall i, j :: 0 <= i < j < |ids| ==> ids[i] != ids[j])
  }

  ghost function Begin(s: Sys, t: nat, request: seq<Submission>, config: map<nat, nat>, fences: seq<Lane>): Sys {
    if t in s.txns || !IsFencePlan(fences, request) then s
    else s.(txns := s.txns[t := Txn(request, config, fences, 0, [], [])])
  }

  ghost function Fence(s: Sys, t: nat): Sys {
    if t !in s.txns || s.txns[t].held >= |s.txns[t].fences| then s
    else if !FenceFree(s.txns, t, s.txns[t].fences[s.txns[t].held]) then s
    else s.(txns := s.txns[t := s.txns[t].(held := s.txns[t].held + 1)])
  }

  predicate CanStage(s: Sys, t: nat) {
    t in s.txns && s.txns[t].held == |s.txns[t].fences| && |s.txns[t].answers| < |s.txns[t].request|
  }

  ghost function Stage(s: Sys, t: nat, clock: int, id: nat): Sys {
    if !CanStage(s, t) then s
    else
      var txn := s.txns[t];
      var q := txn.request[|txn.answers|];
      var visible := s.db.events + txn.staged;
      var r := FindClient(visible, q);
      if r.Some? && visible[r.value].payload == q.payload then
        s.(txns := s.txns[t := txn.(answers := txn.answers + [Answer(visible[r.value].id, true)])])
      else if r.Some? then Rollback(s, t)
      else if ClientStagedElsewhere(s, t, q) || !FreshId(s, id) then s
      else
        var e := Event(id, q.tenant, q.clientId, q.payload, NextAt(visible, LaneOfSubmission(q), clock));
        s.(txns := s.txns[t := txn.(answers := txn.answers + [Answer(id, false)], staged := txn.staged + [e])])
  }

  predicate CanCommit(s: Sys, t: nat) {
    t in s.txns && s.txns[t].held == |s.txns[t].fences| && |s.txns[t].answers| == |s.txns[t].request|
  }

  predicate Oversize(es: seq<Event>) {
    exists i :: 0 <= i < |Groups(es)| && |Groups(es)[i]| > MAX_BATCH_EVENTS
  }

  function Commit(s: Sys, t: nat, ids: seq<nat>, now: int): Sys {
    if !CanCommit(s, t) then s
    else
      var txn := s.txns[t];
      if Oversize(txn.staged) then Rollback(s, t)
      else if |ids| != |GroupKeys(txn.staged)| || !UsableIds(s.db.receipts, ids) then s
      else
        s.(txns := s.txns - {t},
           db := s.db.(events := s.db.events + txn.staged,
                       receipts := AddReceipts(s.db.receipts, ids, txn.staged, txn.config, now, |ids|)))
  }

  /** A failed or crashed acceptance: its inserts vanish and its fences are released. */
  function Rollback(s: Sys, t: nat): Sys { s.(txns := s.txns - {t}) }

  // ---- Receipts -----------------------------------------------------------------------------

  function Woken(r: Receipt, revive: bool, now: int): Receipt {
    if r.status.Queued? || r.status.RetryScheduled? then r.(nextAttemptAt := now)
    else if r.status.Failed? && revive then
      r.(status := Queued, attempts := 0, nextAttemptAt := now, errorClass := NoError)
    else r
  }

  function Wake(s: Sys, ids: set<nat>, revive: bool, now: int): Sys {
    s.(db := s.db.(receipts := map r | r in s.db.receipts ::
      if r in ids then Woken(s.db.receipts[r], revive, now) else s.db.receipts[r]))
  }

  function Recovered(r: Receipt, now: int): Receipt {
    if r.status.Running? && Lapsed(r.leaseExpiresAt, now) then
      r.(status := if r.attempts >= r.maxAttempts then Failed else RetryScheduled,
         nextAttemptAt := now, owner := None, leaseExpiresAt := None,
         errorClass := if r.errorClass.NoError? then WorkerLeaseExpired else r.errorClass)
    else r
  }

  function Recover(s: Sys, now: int): Sys {
    s.(db := s.db.(receipts := map r | r in s.db.receipts :: Recovered(s.db.receipts[r], now)))
  }

  predicate Claimable(r: Receipt, now: int) {
    (r.status.Queued? || r.status.RetryScheduled?) && r.attempts < r.maxAttempts && r.nextAttemptAt <= now
    && (r.leaseExpiresAt.None? || Lapsed(r.leaseExpiresAt, now))
  }

  function Claimed(r: Receipt, w: nat, now: int): Receipt {
    r.(status := Running, attempts := r.attempts + 1, owner := Some(w),
       leaseExpiresAt := Some(now + LEASE_SECONDS), errorClass := NoError)
  }

  /** One owner works serially, so it claims only while it has no job. */
  function Claim(s: Sys, w: nat, r: nat, now: int): Sys {
    if w in s.jobs || r !in s.db.receipts || !Claimable(s.db.receipts[r], now) then s
    else
      var claimed := Claimed(s.db.receipts[r], w, now);
      s.(jobs := s.jobs[w := Job(r, claimed.attempts)], db := s.db.(receipts := s.db.receipts[r := claimed]))
  }

  /** The fence in every later statement of the worker: status, owner and attempt number. */
  predicate Current(s: Sys, w: nat) {
    && w in s.jobs && s.jobs[w].receipt in s.db.receipts
    && var r := s.db.receipts[s.jobs[w].receipt];
       r.status.Running? && r.owner == Some(w) && r.attempts == s.jobs[w].attempts
  }

  function Heartbeat(s: Sys, w: nat, now: int): Sys {
    if !Current(s, w) then s
    else
      var id := s.jobs[w].receipt;
      s.(db := s.db.(receipts :=
        s.db.receipts[id := s.db.receipts[id].(leaseExpiresAt := Some(now + LEASE_SECONDS))]))
  }

  function Latest(es: seq<Event>): (m: Stamp)
    requires es != []
    ensures exists i :: 0 <= i < |es| && m == StampOf(es[i])
    ensures forall i :: 0 <= i < |es| ==> NotAfter(StampOf(es[i]), m)
    decreases |es|
  {
    var last := StampOf(es[|es| - 1]);
    if |es| == 1 then last
    else
      var rest := Latest(es[..|es| - 1]);
      assert forall i :: 0 <= i < |es| - 1 ==> es[i] == es[..|es| - 1][i];
      if Before(rest, last) then last else rest
  }

  /** The tuple guard of the checkpoint upsert. */
  function Advance(checkpoints: map<Lane, Stamp>, lane: Lane, to: Stamp): map<Lane, Stamp> {
    if lane in checkpoints && !Before(checkpoints[lane], to) then checkpoints else checkpoints[lane := to]
  }

  function AdvanceFromMeta(checkpoints: map<Lane, Stamp>, lane: Lane, es: seq<Event>): map<Lane, Stamp> {
    if es == [] then checkpoints else Advance(checkpoints, lane, Latest(es))
  }

  function Finished(r: Receipt): Receipt {
    r.(status := Completed, owner := None, leaseExpiresAt := None, errorClass := NoError, successes := r.successes + 1)
  }

  /** The tables after a successful live-processing transaction for receipt `id`. */
  function SuccessTables(db: Db, id: nat, now: int, rows: seq<Results.Row>): Db
    requires id in db.receipts
  {
    var r := db.receipts[id];
    var lane := LaneOfGroup(r.group);
    db.(results := Results.Apply(db.results, rows, ScopeOf(lane, r.events, r.version)),
        projected := db.projected + Pairs(r.events, r.version),
        dlq := Dlq.ResolveAll(db.dlq, KeySet(DlqKeys(lane, r.events, r.version)), now),
        checkpoints := AdvanceFromMeta(db.checkpoints, lane, r.events),
        receipts := db.receipts[id := Finished(r)])
  }

  predicate RowsFit(db: Db, id: nat, rows: seq<Results.Row>)
    requires id in db.receipts
  {
    var r := db.receipts[id];
    Results.InScope(rows, ScopeOf(LaneOfGroup(r.group), r.events, r.version))
  }

  /** Without the fence, or on foreign rows, the transaction rolls back and the worker goes on to fail. */
  function Succeed(s: Sys, w: nat, now: int, rows: seq<Results.Row>): Sys {
    if !Current(s, w) || !RowsFit(s.db, s.jobs[w].receipt, rows) then s
    else s.(jobs := s.jobs - {w}, db := SuccessTables(s.db, s.jobs[w].receipt, now, rows))
  }

  function FailureDelay(attempts: int): int { Dlq.RetryDelay(attempts) }

  function Aborted(r: Receipt, now: int): Receipt {
    r.(status := if r.attempts >= r.maxAttempts then Failed else RetryScheduled,
       nextAttemptAt := now + FailureDelay(r.attempts), owner := None, leaseExpiresAt := None,
       errorClass := ProcessingError, failures := r.failures + 1)
  }

  /** The tables after a failure transaction: every event is handed to the DLQ and the receipt is released. */
  function FailureTables(db: Db, id: nat, now: int): Db
    requires id in db.receipts
  {
    var r := db.receipts[id];
    db.(dlq := Dlq.EnqueueAll(db.dlq, DlqKeys(LaneOfGroup(r.group), r.events, r.version), now),
        receipts := db.receipts[id := Aborted(r, now)])
  }

  /** Without the fence the transaction rolls back; either way the worker is done with the receipt. */
  function Fail(s: Sys, w: nat, now: int): Sys {
    if w !in s.jobs then s
    else if !Current(s, w) then s.(jobs := s.jobs - {w})
    else s.(jobs := s.jobs - {w}, db := FailureTables(s.db, s.jobs[w].receipt, now))
  }

  function WorkerStops(s: Sys, w: nat): Sys { s.(jobs := s.jobs - {w}) }

  // ---- Projector ----------------------------------------------------------------------------

  predicate After(from: Option<Stamp>, e: Event) { from.Some? ==> Before(from.value, StampOf(e)) }

  function Cursor(checkpoints: map<Lane, Stamp>, lane: Lane): Option<Stamp> {
    if lane in checkpoints then Some(checkpoints[lane]) else None
  }

  /** The page is exactly a range of the lane: sorted, and nothing between its ends is missing. */
  ghost predicate IsRange(events: seq<Event>, lane: Lane, from: Option<Stamp>, page: seq<Event>) {
    && page != []
    && (forall i :: 0 <= i < |page| ==> page[i] in events && LaneOf(page[i]) == lane && After(from, page[i]))
    && (forall i, j :: 0 <= i < j < |page| ==> Before(StampOf(page[i]), StampOf(page[j])))
    && (forall e :: e in events && LaneOf(e) == lane && After(from, e) && e !in page ==>
          Before(StampOf(page[|page| - 1]), StampOf(e)))
  }

  /** ORDER BY created_at, id LIMIT n over the lane's events after the cursor. */
  ghost predicate IsPage(events: seq<Event>, lane: Lane, from: Option<Stamp>, limit: nat, page: seq<Event>) {
    && |page| <= limit
    && (page == [] ==> forall e :: e in events && LaneOf(e) == lane ==> !After(from, e))
    && (page != [] ==> IsRange(events, lane, from, page))
    && (|page| < limit ==> forall e :: e in events && LaneOf(e) == lane && After(from, e) ==> e in page)
  }

  function Clamp(limit: int): nat { Max(1, Min(limit, 1000)) }

  /** Takes the session lease, then reads cursor and page under the acceptance fence. */
  ghost function SweepStart(s: Sys, lane: Lane, version: nat, limit: int, page: seq<Event>): Sys {
    if lane in s.sweeps || (exists u :: u in s.txns && lane in Held(s.txns[u])) then s
    else
      var from := Cursor(s.db.checkpoints, lane);
      if !IsPage(s.db.events, lane, from, Clamp(limit), page) || page == [] then s
      else s.(sweeps := s.sweeps[lane := Sweep(from, version, page)])
  }

  function SweepTables(db: Db, lane: Lane, page: seq<Event>): Db
    requires page != []
  {
    db.(checkpoints := Advance(db.checkpoints, lane, StampOf(page[|page| - 1])), swept := db.swept + Ids(page))
  }

  function SweepOk(s: Sys, lane: Lane, now: int, rows: seq<Results.Row>): Sys {
    if lane !in s.sweeps || s.sweeps[lane].page == [] then s
    else
      var sw := s.sweeps[lane];
      var scope := ScopeOf(lane, sw.page, sw.version);
      if !Results.InScope(rows, scope) then s
      else
        var db := SweepTables(s.db, lane, sw.page);
        s.(sweeps := s.sweeps - {lane},
           db := db.(results := Results.Apply(db.results, rows, scope),
                     projected := db.projected + Pairs(sw.page, sw.version),
                     dlq := Dlq.ResolveAll(db.dlq, KeySet(DlqKeys(lane, sw.page, sw.version)), now)))
  }

  /** DLQ handoff and cursor movement are one transaction. */
  function SweepFail(s: Sys, lane: Lane, now: int): Sys {
    if lane !in s.sweeps || s.sweeps[lane].page == [] then s
    else
      var sw := s.sweeps[lane];
      var db := SweepTables(s.db, lane, sw.page);
      s.(sweeps := s.sweeps - {lane},
         db := db.(dlq := Dlq.EnqueueAll(db.dlq, DlqKeys(lane, sw.page, sw.version), now)))
  }

  /** The session ends without committing and its advisory lock goes with it. */
  function SweepStops(s: Sys, lane: Lane): Sys { s.(sweeps := s.sweeps - {lane}) }

  // ---- Dead-letter retry --------------------------------------------------------------------

  function RetryTake(s: Sys, o: nat, i: nat, now: int): Sys {
    if o in s.retries || i >= |s.db.dlq| || !Dlq.CanTake(s.db.dlq[i], now) then s
    else
      var row := Dlq.Taken(s.db.dlq[i], o, now);
      s.(retries := s.retries[o := Retry(i, row.key, row.attempts, false)],
         db := s.db.(dlq := s.db.dlq[i := row]))
  }

  /** The upsert commits on its own, before the row is resolved. */
  function RetryProject(s: Sys, o: nat, rows: seq<Results.Row>): Sys {
    if o !in s.retries then s
    else
      var rt := s.retries[o];
      var scope := Results.Scope(rt.key.version, {rt.key.lane.tenant}, {rt.key.event}, {rt.key.event});
      if !Results.InScope(rows, scope) then s
      else
        s.(retries := s.retries[o := rt.(projected := true)],
           db := s.db.(results := Results.Apply(s.db.results, rows, scope),
                       projected := s.db.projected + {(rt.key.event, rt.key.version)}))
  }

  predicate HoldsRow(s: Sys, o: nat) {
    o in s.retries && s.retries[o].row < |s.db.dlq| && s.db.dlq[s.retries[o].row].lockedBy == Some(o)
  }

  function RetryResolve(s: Sys, o: nat): Sys {
    if !HoldsRow(s, o) || !s.retries[o].projected then s
    else
      var i := s.retries[o].row;
      s.(retries := s.retries - {o}, db := s.db.(dlq := s.db.dlq[i := Dlq.Closed(s.db.dlq[i])]))
  }

  function RetryReschedule(s: Sys, o: nat, now: int): Sys {
    if o !in s.retries then s
    else if !HoldsRow(s, o) then s.(retries := s.retries - {o})
    else
      var i := s.retries[o].row;
      s.(retries := s.retries - {o},
         db := s.db.(dlq := s.db.dlq[i := Dlq.Rescheduled(s.db.dlq[i], now, s.retries[o].attempts)]))
  }

  function RetryStops(s: Sys, o: nat): Sys { s.(retries := s.retries - {o}) }

  // ---- Runs ---------------------------------------------------------------------------------

  datatype Step =
    | BeginStep(t: nat, request: seq<Submission>, config: map<nat, nat>, fences: seq<Lane>)
    | FenceStep(t: nat)
    | StageStep(t: nat, clock: int, id: nat)
    | CommitStep(t: nat, ids: seq<nat>, now: int)
    | RollbackStep(t: nat)
    | WakeStep(receipts: set<nat>, revive: bool, now: int)
    | RecoverStep(now: int)
    | ClaimStep(w: nat, r: nat, now: int)
    | HeartbeatStep(w: nat, now: int)
    | SucceedStep(w: nat, now: int, rows: seq<Results.Row>)
    | FailStep(w: nat, now: int)
    | WorkerStopsStep(w: nat)
    | SweepStartStep(lane: Lane, version: nat, limit: int, page: seq<Event>)
    | SweepOkStep(lane: Lane, now: int, rows: seq<Results.Row>)
    | SweepFailStep(lane: Lane, now: int)
    | SweepStopsStep(lane: Lane)
    | RetryTakeStep(o: nat, row: nat, now: int)
    | RetryProjectStep(o: nat, rows: seq<Results.Row>)
    | RetryResolveStep(o: nat)
    | RetryRescheduleStep(o: nat, now: int)
    | RetryStopsStep(o: nat)

  ghost function Next(s: Sys, step: Step): Sys {
    match step
    case BeginStep(t, request, config, fences) => Begin(s, t, request, config, fences)
    case FenceStep(t) => Fence(s, t)
    case StageStep(t, clock, id) => Stage(s, t, clock, id)
    case CommitStep(t, ids, now) => Commit(s, t, ids, now)
    case RollbackStep(t) => Rollback(s, t)
    case WakeStep(receipts, revive, now) => Wake(s, receipts, revive, now)
    case RecoverStep(now) => Recover(s, now)
    case ClaimStep(w, r, now) => Claim(s, w, r, now)
    case HeartbeatStep(w, now) => Heartbeat(s, w, now)
    case SucceedStep(w, now, rows) => Succeed(s, w, now, rows)
    case FailStep(w, now) => Fail(s, w, now)
    case WorkerStopsStep(w) => WorkerStops(s, w)
    case SweepStartStep(lane, version, limit, page) => SweepStart(s, lane, version, limit, page)
    case SweepOkStep(lane, now, rows) => SweepOk(s, lane, now, rows)
    case SweepFailStep(lane, now) => SweepFail(s, lane, now)
    case SweepStopsStep(lane) => SweepStops(s, lane)
    case RetryTakeStep(o, row, now) => RetryTake(s, o, row, now)
    case RetryProjectStep(o, rows) => RetryProject(s, o, rows)
    case RetryResolveStep(o) => RetryResolve(s, o)
    case RetryRescheduleStep(o, now) => RetryReschedule(s, o, now)
    case RetryStopsStep(o) => RetryStops(s, o)
  }

  ghost function Run(s: Sys, steps: seq<Step>): Sys
    decreases |steps|
  {
    if steps == [] then s else Next(Run(s, steps[..|steps| - 1]), steps[|steps| - 1])
  }

  lemma RunNothing(s: Sys)
    ensures Run(s, []) == s
  {}

  lemma RunSnoc(s: Sys, steps: seq<Step>, step: Step)
    ensures Run(s, steps + [step]) == Next(Run(s, steps), step)
  {
    assert (steps + [step])[..|steps|] == steps;
  }

  lemma {:induction false} RunConcat(s: Sys, first: seq<Step>, second: seq<Step>)
    ensures Run(s, first + second) == Run(Run(s, first), second)
    decreases |second|
  {
    if second == [] {
      assert first + second == first;
    } else {
      var n := |second| - 1;
      RunConcat(s, first, second[..n]);
      RunSnoc(s, first + second[..n], second[n]);
      assert first + second == first + second[..n] + [second[n]];
    }
  }
}
