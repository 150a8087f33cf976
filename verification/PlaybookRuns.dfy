/** What every run of the playbook machine keeps, however its sessions overlap or stop. */
module PlaybookRuns {
  import opened Prelude
  import opened Playbooks

  predicate RowOk(row: Row) {
    && 1 <= row.attempt <= row.maxAttempts == MaxAttempts(row.kind)
    && (row.status.Running? ==> row.kind.Webhook? && row.owner.Some? && row.leaseExpiresAt.Some?)
    && (row.status.RetryScheduled? ==> row.kind.Webhook? && row.nextAttemptAt.Some?)
    && (row.status.AwaitingAck? ==> row.kind.Control?)
    && (row.status.Unsupported? <==> row.kind.Other?)
    && (!row.status.Running? ==> row.owner.None? && row.leaseExpiresAt.None?)
  }

  /** The rows are exactly a prefix of the plan, and all but the last are succeeded. */
  ghost predicate PlanPrefix(plan: seq<Kind>, rows: map<nat, Row>) {
    && |rows| <= |plan|
    && (forall i: nat :: i in rows <==> i < |rows|)
    && (forall i: nat :: i in rows ==> rows[i].kind == plan[i] && RowOk(rows[i]))
    && (forall i: nat :: i in rows && i + 1 < |rows| ==> rows[i].status.Succeeded?)
  }

  /** The first n actions all succeeded. */
  predicate Done(rows: map<nat, Row>, n: nat) {
    forall j: nat :: j < n ==> j in rows && rows[j].status.Succeeded?
  }

  /** An attempt a session still has to call or to settle; if the lease is still its own, it is the latest attempt. */
  predicate ClaimOk(rows: map<nat, Row>, a: nat, i: nat, attempt: nat) {
    && i in rows && rows[i].kind.Webhook? && Done(rows, i)
    && 1 <= attempt <= rows[i].attempt
    && (LeasedTo(rows[i], a) ==> attempt == rows[i].attempt)
  }

  predicate SessionOk(plan: seq<Kind>, rows: map<nat, Row>, calls: seq<Token>, a: nat, phase: Phase) {
    match phase
    case Walk(i) => i <= |plan| && Done(rows, i)
    case Look(i) => i < |plan| && i in rows && Done(rows, i)
    case Deliver(i, k, _) => ClaimOk(rows, a, i, k) && Token(i, k) !in calls
    case Persist(i, k, _, _) => ClaimOk(rows, a, i, k) && Token(i, k) in calls
    case Refresh => true
    case Write(_) => true
  }

  predicate ClaimsDiffer(p: Phase, q: Phase) {
    (p.Deliver? || p.Persist?) && (q.Deliver? || q.Persist?) ==> p.i != q.i || p.attempt != q.attempt
  }

  /** No attempt is ever called twice, and only started attempts are called. */
  ghost predicate CallsOk(rows: map<nat, Row>, calls: seq<Token>) {
    && (forall j, k :: 0 <= j < k < |calls| ==> calls[j] != calls[k])
    && (forall t :: t in calls ==> t.action in rows && rows[t.action].kind.Webhook? && 1 <= t.attempt <= rows[t.action].attempt)
  }

  ghost predicate Inv(s: Sys) {
    && PlanPrefix(s.plan, s.rows) && CallsOk(s.rows, s.calls)
    && (forall a :: a in s.sessions ==> SessionOk(s.plan, s.rows, s.calls, a, s.sessions[a]))
    && (forall a, b :: a in s.sessions && b in s.sessions && a != b ==> ClaimsDiffer(s.sessions[a], s.sessions[b]))
  }

  // ---- How one row may change ---------------------------------------------------------------

  /** `taker` is the only session that can newly lease the row. */
  predicate RowMoves(r: Row, r': Row, taker: nat) {
    && r'.kind == r.kind && RowOk(r') && r.attempt <= r'.attempt
    && (r.status.Succeeded? ==> r'.status.Succeeded?)
    && (r'.status.Running? ==> r' == r || r'.owner == Some(taker))
  }

  ghost predicate RowsMove(rows: map<nat, Row>, rows': map<nat, Row>, taker: nat) {
    rows'.Keys == rows.Keys && forall i: nat :: i in rows ==> rows[i] == rows'[i] || RowMoves(rows[i], rows'[i], taker)
  }

  lemma MoveKeepsPrefix(plan: seq<Kind>, rows: map<nat, Row>, rows': map<nat, Row>, calls: seq<Token>, taker: nat)
    requires PlanPrefix(plan, rows) && CallsOk(rows, calls) && RowsMove(rows, rows', taker)
    ensures PlanPrefix(plan, rows') && CallsOk(rows', calls)
  {}

  lemma MoveKeepsSession(plan: seq<Kind>, rows: map<nat, Row>, rows': map<nat, Row>, calls: seq<Token>,
                         taker: nat, a: nat, phase: Phase)
    requires RowsMove(rows, rows', taker) && a != taker && SessionOk(plan, rows, calls, a, phase)
    ensures SessionOk(plan, rows', calls, a, phase)
  {}

  /** Rows move under a session that holds no claim before the step and ends up somewhere sound. */
  lemma MoveInv(s: Sys, rows': map<nat, Row>, a: nat, phase: Phase)
    requires Inv(s) && RowsMove(s.rows, rows', a)
    requires SessionOk(s.plan, rows', s.calls, a, phase)
    requires forall b :: b in s.sessions && b != a ==> ClaimsDiffer(phase, s.sessions[b])
    ensures Inv(Goto(s.(rows := rows'), a, phase))
  {
    var s' := Goto(s.(rows := rows'), a, phase);
    MoveKeepsPrefix(s.plan, s.rows, rows', s.calls, a);
    forall b | b in s'.sessions ensures SessionOk(s'.plan, s'.rows, s'.calls, b, s'.sessions[b]) {
      if b != a { MoveKeepsSession(s.plan, s.rows, rows', s.calls, a, b, s.sessions[b]); }
    }
  }

  /** Without a change to the rows. */
  lemma GotoInv(s: Sys, a: nat, phase: Phase)
    requires Inv(s) && SessionOk(s.plan, s.rows, s.calls, a, phase) && !phase.Deliver? && !phase.Persist?
    ensures Inv(Goto(s, a, phase))
  {}

  // ---- Step by step -------------------------------------------------------------------------

  lemma NextIsLast(plan: seq<Kind>, rows: map<nat, Row>, i: nat)
    requires PlanPrefix(plan, rows) && Done(rows, i) && i !in rows
    ensures i == |rows|
  {
    assert |rows| !in rows;
  }

  lemma GrowKeepsPrefix(plan: seq<Kind>, rows: map<nat, Row>, calls: seq<Token>, i: nat, row: Row)
    requires PlanPrefix(plan, rows) && CallsOk(rows, calls)
    requires i == |rows| < |plan| && Done(rows, i) && row.kind == plan[i] && RowOk(row)
    ensures PlanPrefix(plan, rows[i := row]) && CallsOk(rows[i := row], calls)
  {}

  lemma GrowKeepsSession(plan: seq<Kind>, rows: map<nat, Row>, calls: seq<Token>, i: nat, row: Row, a: nat, phase: Phase)
    requires i !in rows && SessionOk(plan, rows, calls, a, phase)
    ensures SessionOk(plan, rows[i := row], calls, a, phase)
  {}

  /** The claim on a row that did not exist differs from every other claim. */
  lemma GrowInv(s: Sys, a: nat, i: nat, row: Row, phase: Phase)
    requires Inv(s) && i == |s.rows| < |s.plan| && Done(s.rows, i) && row.kind == s.plan[i] && RowOk(row)
    requires SessionOk(s.plan, s.rows[i := row], s.calls, a, phase)
    requires phase.Refresh? || (phase.Deliver? && phase.i == i)
    ensures Inv(Goto(s.(rows := s.rows[i := row]), a, phase))
  {
    var s' := Goto(s.(rows := s.rows[i := row]), a, phase);
    GrowKeepsPrefix(s.plan, s.rows, s.calls, i, row);
    forall b | b in s'.sessions && b != a
      ensures SessionOk(s'.plan, s'.rows, s'.calls, b, s'.sessions[b]) && ClaimsDiffer(phase, s.sessions[b])
    {
      GrowKeepsSession(s.plan, s.rows, s.calls, i, row, b, s.sessions[b]);
    }
  }

  lemma InsertInv(s: Sys, a: nat, now: int)
    requires Inv(s)
    ensures Inv(Insert(s, a, now))
  {
    if a in s.sessions && s.sessions[a].Walk? {
      var i := s.sessions[a].i;
      assert SessionOk(s.plan, s.rows, s.calls, a, s.sessions[a]);
      if i >= |s.plan| {
        GotoInv(s, a, Refresh);
      } else if i in s.rows {
        GotoInv(s, a, Look(i));
      } else {
        InsertNewInv(s, a, i, now);
      }
    }
  }

  lemma InsertNewInv(s: Sys, a: nat, i: nat, now: int)
    requires Inv(s) && i < |s.plan| && i !in s.rows && Done(s.rows, i)
    ensures Inv(Goto(s.(rows := s.rows[i := FirstRow(s.plan[i], a, now)]), a,
                     if s.plan[i].Webhook? then Deliver(i, 1, false) else Refresh))
  {
    var row := FirstRow(s.plan[i], a, now);
    var phase := if s.plan[i].Webhook? then Deliver(i, 1, false) else Refresh;
    NextIsLast(s.plan, s.rows, i);
    GrowKeepsPrefix(s.plan, s.rows, s.calls, i, row);
    GrowInv(s, a, i, row, phase);
  }

  lemma ReadInv(s: Sys, a: nat)
    requires Inv(s)
    ensures Inv(Read(s, a))
  {
    if a in s.sessions && s.sessions[a].Look? {
      var i := s.sessions[a].i;
      assert SessionOk(s.plan, s.rows, s.calls, a, s.sessions[a]);
      GotoInv(s, a, if i in s.rows && s.rows[i].status.Succeeded? then Walk(i + 1) else Refresh);
    }
  }

  lemma CallInv(s: Sys, a: nat, outcome: Outcome)
    requires Inv(s)
    ensures Inv(Call(s, a, outcome))
  {
    if a in s.sessions && s.sessions[a].Deliver? {
      var s' := Call(s, a, outcome);
      var p := s.sessions[a];
      assert SessionOk(s.plan, s.rows, s.calls, a, p);
      forall b | b in s'.sessions ensures SessionOk(s'.plan, s'.rows, s'.calls, b, s'.sessions[b]) {
        if b != a {
          assert SessionOk(s.plan, s.rows, s.calls, b, s.sessions[b]);
          assert ClaimsDiffer(p, s.sessions[b]);
        }
      }
    }
  }

  lemma SettledMoves(row: Row, a: nat, outcome: Outcome, attempt: nat, now: int)
    requires RowOk(row) && LeasedTo(row, a)
    ensures RowMoves(row, Settled(row, outcome, attempt, now), a)
  {}

  lemma SettleLeasedInv(s: Sys, a: nat, p: Phase, now: int)
    requires Inv(s) && p.Persist? && p.i in s.rows && Done(s.rows, p.i) && LeasedTo(s.rows[p.i], a)
    ensures var row := Settled(s.rows[p.i], p.outcome, p.attempt, now);
            Inv(Goto(s.(rows := s.rows[p.i := row]), a,
                     if row.status.Succeeded? then Walk(if p.retry then 0 else p.i + 1) else Refresh))
  {
    hide Settled;
    var row := Settled(s.rows[p.i], p.outcome, p.attempt, now);
    SettledMoves(s.rows[p.i], a, p.outcome, p.attempt, now);
    MoveInv(s, s.rows[p.i := row], a, if row.status.Succeeded? then Walk(if p.retry then 0 else p.i + 1) else Refresh);
  }

  lemma SettleInv(s: Sys, a: nat, now: int)
    requires Inv(s)
    ensures Inv(Settle(s, a, now))
  {
    if a in s.sessions && s.sessions[a].Persist? {
      var p := s.sessions[a];
      assert SessionOk(s.plan, s.rows, s.calls, a, p);
      if LeasedTo(s.rows[p.i], a) {
        SettleLeasedInv(s, a, p, now);
      } else if p.retry {
        EndInv(s, a);
      } else {
        GotoInv(s, a, Refresh);
      }
      hide Inv, Settled;
    }
  }

  lemma ClaimInv(s: Sys, a: nat, i: nat, now: int)
    requires Inv(s)
    ensures Inv(Claim(s, a, i, now))
  {
    if a !in s.sessions && i in s.rows && Due(s.rows[i], now) {
      var row := Reclaimed(s.rows[i], a, now);
      forall b | b in s.sessions ensures ClaimsDiffer(Deliver(i, row.attempt, true), s.sessions[b]) {
        assert SessionOk(s.plan, s.rows, s.calls, b, s.sessions[b]);
      }
      MoveInv(s, s.rows[i := row], a, Deliver(i, row.attempt, true));
    }
  }

  lemma FinalizeInv(s: Sys, a: nat, now: int)
    requires Inv(s)
    ensures Inv(Finalize(s, a, now))
  {
    if a !in s.sessions { MoveInv(s, FinalizeAll(s.rows, now), a, Refresh); }
  }

  lemma AcknowledgeInv(s: Sys, a: nat, i: nat, ok: bool, replay: bool)
    requires Inv(s)
    ensures Inv(Acknowledge(s, a, i, ok, replay))
  {
    var phase := if ok then Walk(0) else Refresh;
    if a !in s.sessions && i in s.rows {
      if CanAck(s.rows[i]) {
        MoveInv(s, s.rows[i := s.rows[i].(status := AckStatus(ok))], a, phase);
      } else {
        GotoInv(s, a, phase);
      }
    }
  }

  lemma RequeueInv(s: Sys, a: nat, i: nat, now: int)
    requires Inv(s)
    ensures Inv(Requeue(s, a, i, now))
  {
    if a !in s.sessions && i in s.rows && CanRequeue(s.rows[i]) {
      MoveInv(s, s.rows[i := Requeued(s.rows[i], now)], a, Refresh);
    }
  }

  lemma NextInv(s: Sys, step: Step)
    requires Inv(s)
    ensures Inv(Next(s, step))
  {
    hide Inv;
    match step
    case OpenStep(a) => if a !in s.sessions { GotoInv(s, a, Walk(0)); }
    case InsertStep(a, now) => InsertInv(s, a, now);
    case ReadStep(a) => ReadInv(s, a);
    case CallStep(a, outcome) => CallInv(s, a, outcome);
    case SettleStep(a, now) => SettleInv(s, a, now);
    case ClaimStep(a, i, now) => ClaimInv(s, a, i, now);
    case FinalizeStep(a, now) => FinalizeInv(s, a, now);
    case AckStep(a, i, ok, replay) => AcknowledgeInv(s, a, i, ok, replay);
    case RequeueStep(a, i, now) => RequeueInv(s, a, i, now);
    case RefreshReadStep(a) =>
      if a in s.sessions && s.sessions[a].Refresh? { GotoInv(s, a, Write(Summarize(Statuses(s.rows)))); }
    case RefreshWriteStep(a) => WriteInv(s, a);
    case StopStep(a) => EndInv(s, a);
  }

  lemma EndInv(s: Sys, a: nat)
    requires Inv(s)
    ensures Inv(End(s, a))
  {}

  lemma WriteInv(s: Sys, a: nat)
    requires Inv(s)
    ensures Inv(RefreshWrite(s, a))
  {}

  lemma {:induction false} RunInv(s: Sys, steps: seq<Step>)
    requires Inv(s)
    ensures Inv(Run(s, steps))
    decreases |steps|
  {
    if steps != [] {
      RunInv(s, steps[..|steps| - 1]);
      NextInv(Run(s, steps[..|steps| - 1]), steps[|steps| - 1]);
    }
  }

  /** Prefix, one action in flight, order of calls, and at most one call per attempt, in every reachable state. */
  lemma ReachableInv(plan: seq<Kind>, steps: seq<Step>)
    ensures Inv(Run(Start(plan), steps))
    ensures Run(Start(plan), steps).plan == plan
  {
    RunInv(Start(plan), steps);
    RunPlan(Start(plan), steps);
  }

  lemma {:induction false} RunPlan(s: Sys, steps: seq<Step>)
    ensures Run(s, steps).plan == s.plan
    decreases |steps|
  {
    if steps != [] { RunPlan(s, steps[..|steps| - 1]); }
  }
}
