/** A playbook run does a bounded amount of work: the measure that every progressing step lowers. */
module PlaybookBounds {
  import opened Prelude
  import opened Playbooks
  import opened PlaybookRuns

  function Rank(status: Status): nat {
    match status
    case Running => 3
    case AwaitingAck => 3
    case Failed => 2
    case RetryScheduled => 1
    case Succeeded => 0
    case Unsupported => 0
  }

  function RowCost(row: Row): nat
    requires row.attempt <= row.maxAttempts
  {
    4 * (row.maxAttempts - row.attempt) + Rank(row.status)
  }

  function Count(calls: seq<Token>, i: nat): nat {
    if calls == [] then 0
    else Count(calls[..|calls| - 1], i) + if calls[|calls| - 1].action == i then 1 else 0
  }

  /** What plan position i can still do: attempts and status changes left, and calls left. */
  function Cost(s: Sys, i: nat): int
    requires i < |s.plan| && (i in s.rows ==> s.rows[i].attempt <= s.rows[i].maxAttempts)
  {
    (if i in s.rows then RowCost(s.rows[i]) else 4 * MaxAttempts(s.plan[i])) + MaxAttempts(s.plan[i]) - Count(s.calls, i)
  }

  predicate Costed(s: Sys) {
    forall i :: i in s.rows ==> s.rows[i].attempt <= s.rows[i].maxAttempts
  }

  function Measure(s: Sys, n: nat): int
    requires n <= |s.plan| && Costed(s)
  {
    if n == 0 then 0 else Measure(s, n - 1) + Cost(s, n - 1)
  }

  function Capacity(plan: seq<Kind>): nat {
    if plan == [] then 0 else Capacity(plan[..|plan| - 1]) + MaxAttempts(plan[|plan| - 1])
  }

  /** A step that writes a row's status or attempt, adds a row, or calls a webhook. */
  predicate Progress(s: Sys, s': Sys) {
    s'.calls != s.calls || s'.rows.Keys != s.rows.Keys
    || exists i :: i in s.rows && i in s'.rows
                   && (s.rows[i].status != s'.rows[i].status || s.rows[i].attempt != s'.rows[i].attempt)
  }

  function Attempts(calls: seq<Token>, i: nat): set<nat> { set t | t in calls && t.action == i :: t.attempt }

  lemma {:induction false} CountIsAttempts(calls: seq<Token>, i: nat)
    requires forall j, k :: 0 <= j < k < |calls| ==> calls[j] != calls[k]
    ensures Count(calls, i) == |Attempts(calls, i)|
  {
    if calls != [] {
      var n := |calls| - 1;
      var last := calls[n];
      CountIsAttempts(calls[..n], i);
      assert calls == calls[..n] + [last];
      if last.action == i {
        assert last !in calls[..n];
        assert last.attempt !in Attempts(calls[..n], i);
        assert Attempts(calls, i) == Attempts(calls[..n], i) + {last.attempt};
      } else {
        assert Attempts(calls, i) == Attempts(calls[..n], i);
      }
    }
  }

  lemma {:induction false} AtMost(xs: set<nat>, m: nat)
    requires forall x :: x in xs ==> 1 <= x <= m
    ensures |xs| <= m
  {
    if m == 0 {
      assert xs == {};
    } else {
      AtMost(xs - {m}, m - 1);
    }
  }

  lemma CountBounded(s: Sys, i: nat)
    requires Inv(s)
    ensures Count(s.calls, i) <= if i in s.rows then s.rows[i].attempt else 0
  {
    CountIsAttempts(s.calls, i);
    AtMost(Attempts(s.calls, i), if i in s.rows then s.rows[i].attempt else 0);
  }

  /** However many sessions and operators act, an action's webhook is called at most `max_attempts` times. */
  lemma CallsBounded(plan: seq<Kind>, steps: seq<Step>, i: nat)
    requires i < |plan|
    ensures Count(Run(Start(plan), steps).calls, i) <= if plan[i].Webhook? then 5 else 0
  {
    ReachableInv(plan, steps);
    var s := Run(Start(plan), steps);
    CountBounded(s, i);
    if !plan[i].Webhook? {
      assert Attempts(s.calls, i) == {};
      CountIsAttempts(s.calls, i);
    }
  }

  predicate RowCheaper(r: Row, r': Row) {
    && r.attempt <= r.maxAttempts && r'.attempt <= r'.maxAttempts
    && RowCost(r') <= RowCost(r)
    && (r.status != r'.status || r.attempt != r'.attempt ==> RowCost(r') < RowCost(r))
  }

  predicate NewRowCheap(kind: Kind, r: Row) {
    r.attempt <= r.maxAttempts && RowCost(r) < 4 * MaxAttempts(kind)
  }

  ghost predicate Cheaper(s: Sys, s': Sys) {
    && s'.plan == s.plan && s.rows.Keys <= s'.rows.Keys
    && (forall i :: i in s.rows ==> RowCheaper(s.rows[i], s'.rows[i]))
    && (forall i :: i in s'.rows && i !in s.rows ==> i < |s.plan| && NewRowCheap(s.plan[i], s'.rows[i]))
    && (s'.calls == s.calls || exists t: Token :: t.action < |s.plan| && s'.calls == s.calls + [t])
  }

  lemma InsertCheaper(s: Sys, a: nat, now: int)
    requires PlanPrefix(s.plan, s.rows)
    ensures Cheaper(s, Insert(s, a, now))
  {}

  lemma SettledCheaper(row: Row, a: nat, outcome: Outcome, attempt: nat, now: int)
    requires RowOk(row) && LeasedTo(row, a)
    ensures RowCheaper(row, Settled(row, outcome, attempt, now))
  {}

  lemma SettleCheaper(s: Sys, a: nat, now: int)
    requires PlanPrefix(s.plan, s.rows)
    ensures Cheaper(s, Settle(s, a, now))
  {
    if a in s.sessions && s.sessions[a].Persist? {
      var p := s.sessions[a];
      if p.i in s.rows && LeasedTo(s.rows[p.i], a) {
        SettledCheaper(s.rows[p.i], a, p.outcome, p.attempt, now);
      }
    }
  }

  lemma CallCheaper(s: Sys, a: nat, outcome: Outcome)
    requires PlanPrefix(s.plan, s.rows)
    requires a in s.sessions && s.sessions[a].Deliver? ==> s.sessions[a].i < |s.plan|
    ensures Cheaper(s, Call(s, a, outcome))
  {}

  lemma ClaimCheaper(s: Sys, a: nat, i: nat, now: int)
    requires PlanPrefix(s.plan, s.rows)
    ensures Cheaper(s, Claim(s, a, i, now))
  {}

  lemma AcknowledgeCheaper(s: Sys, a: nat, i: nat, ok: bool, replay: bool)
    requires PlanPrefix(s.plan, s.rows)
    ensures Cheaper(s, Acknowledge(s, a, i, ok, replay))
  {}

  lemma RequeueCheaper(s: Sys, a: nat, i: nat, now: int)
    requires PlanPrefix(s.plan, s.rows)
    ensures Cheaper(s, Requeue(s, a, i, now))
  {}

  lemma FinalizeCheaper(s: Sys, a: nat, now: int)
    requires PlanPrefix(s.plan, s.rows)
    ensures Cheaper(s, Finalize(s, a, now))
  {}

  lemma NextCheaper(s: Sys, step: Step)
    requires PlanPrefix(s.plan, s.rows)
    requires forall a :: a in s.sessions && s.sessions[a].Deliver? ==> s.sessions[a].i < |s.plan|
    ensures Cheaper(s, Next(s, step))
  {
    hide PlanPrefix, Cheaper, Insert, Settle, Call, Claim, Finalize, Acknowledge, Requeue;
    match step
    case InsertStep(a, now) => InsertCheaper(s, a, now);
    case CallStep(a, outcome) => CallCheaper(s, a, outcome);
    case SettleStep(a, now) => SettleCheaper(s, a, now);
    case ClaimStep(a, i, now) => ClaimCheaper(s, a, i, now);
    case FinalizeStep(a, now) => FinalizeCheaper(s, a, now);
    case AckStep(a, i, ok, replay) => AcknowledgeCheaper(s, a, i, ok, replay);
    case RequeueStep(a, i, now) => RequeueCheaper(s, a, i, now);
    case _ => SameTablesCheaper(s, Next(s, step));
  }

  lemma SameTablesCheaper(s: Sys, s': Sys)
    requires PlanPrefix(s.plan, s.rows) && s'.plan == s.plan && s'.rows == s.rows && s'.calls == s.calls
    ensures Cheaper(s, s')
  {}

  lemma CheaperCost(s: Sys, s': Sys, i: nat)
    requires Costed(s) && Cheaper(s, s') && Costed(s') && i < |s.plan|
    ensures Cost(s', i) <= Cost(s, i)
    ensures i in s'.rows && i !in s.rows ==> Cost(s', i) < Cost(s, i)
    ensures i in s.rows && (s.rows[i].status != s'.rows[i].status || s.rows[i].attempt != s'.rows[i].attempt) ==>
              Cost(s', i) < Cost(s, i)
    ensures s'.calls != s.calls && s'.calls[|s'.calls| - 1].action == i ==> Cost(s', i) < Cost(s, i)
  {}

  lemma {:induction false} MeasureFalls(s: Sys, s': Sys, n: nat, at: nat)
    requires Costed(s) && Costed(s') && Cheaper(s, s') && n <= |s.plan|
    ensures Measure(s', n) <= Measure(s, n)
    ensures at < n && Cost(s', at) < Cost(s, at) ==> Measure(s', n) < Measure(s, n)
  {
    if n > 0 {
      MeasureFalls(s, s', n - 1, at);
      CheaperCost(s, s', n - 1);
    }
  }

  /** The plan position whose cost a progressing step lowers. */
  lemma ProgressAt(s: Sys, s': Sys) returns (i: nat)
    requires Costed(s) && Costed(s') && Cheaper(s, s') && Progress(s, s')
    requires forall j :: j in s.rows ==> j < |s.plan|
    ensures i < |s.plan| && Cost(s', i) < Cost(s, i)
  {
    if s'.calls != s.calls {
      var t: Token :| t.action < |s.plan| && s'.calls == s.calls + [t];
      i := t.action;
    } else if s'.rows.Keys != s.rows.Keys {
      i :| i in s'.rows && i !in s.rows;
    } else {
      i :| i in s.rows && i in s'.rows && (s.rows[i].status != s'.rows[i].status || s.rows[i].attempt != s'.rows[i].attempt);
    }
    CheaperCost(s, s', i);
  }

  lemma InvFacts(s: Sys)
    requires Inv(s)
    ensures Costed(s) && PlanPrefix(s.plan, s.rows) && (forall j :: j in s.rows ==> j < |s.plan|)
    ensures forall a :: a in s.sessions && s.sessions[a].Deliver? ==> s.sessions[a].i < |s.plan|
  {}

  /** Every step that writes a status or attempt, adds a row or calls a webhook lowers the measure; no step raises it. */
  lemma ProgressFalls(s: Sys, step: Step)
    requires Inv(s)
    ensures Costed(s) && Costed(Next(s, step)) && Next(s, step).plan == s.plan
    ensures Measure(Next(s, step), |s.plan|) <= Measure(s, |s.plan|)
    ensures Progress(s, Next(s, step)) ==> Measure(Next(s, step), |s.plan|) < Measure(s, |s.plan|)
  {
    var s' := Next(s, step);
    InvFacts(s);
    NextInv(s, step);
    InvFacts(s');
    NextCheaper(s, step);
    FallsWhenCheaper(s, s');
  }

  lemma FallsWhenCheaper(s: Sys, s': Sys)
    requires Costed(s) && Costed(s') && Cheaper(s, s')
    requires forall j :: j in s.rows ==> j < |s.plan|
    ensures Measure(s', |s.plan|) <= Measure(s, |s.plan|)
    ensures Progress(s, s') ==> Measure(s', |s.plan|) < Measure(s, |s.plan|)
  {
    MeasureFalls(s, s', |s.plan|, 0);
    if Progress(s, s') {
      var i := ProgressAt(s, s');
      MeasureFalls(s, s', |s.plan|, i);
    }
  }

  lemma {:induction false} MeasureBounds(s: Sys, n: nat)
    requires Inv(s) && n <= |s.plan|
    ensures Costed(s) && Measure(s, n) >= 0
  {
    InvFacts(s);
    if n > 0 {
      MeasureBounds(s, n - 1);
      CountBounded(s, n - 1);
    }
  }

  lemma {:induction false} MeasureAtStart(plan: seq<Kind>, n: nat)
    requires n <= |plan|
    ensures Measure(Start(plan), n) == 5 * Capacity(plan[..n])
  {
    if n > 0 {
      MeasureAtStart(plan, n - 1);
      assert plan[..n][..n - 1] == plan[..n - 1];
    } else {
      assert plan[..0] == [];
    }
  }

  /** How many steps of a run progress. */
  function Progressing(s: Sys, steps: seq<Step>): nat
    decreases |steps|
  {
    if steps == [] then 0
    else
      var n := |steps| - 1;
      Progressing(s, steps[..n]) + if Progress(Run(s, steps[..n]), Run(s, steps)) then 1 else 0
  }

  lemma {:induction false} ProgressSpendsMeasure(plan: seq<Kind>, steps: seq<Step>)
    ensures Run(Start(plan), steps).plan == plan && Costed(Run(Start(plan), steps))
    ensures Progressing(Start(plan), steps) + Measure(Run(Start(plan), steps), |plan|) <= Measure(Start(plan), |plan|)
    decreases |steps|
  {
    if steps != [] {
      var n := |steps| - 1;
      ProgressSpendsMeasure(plan, steps[..n]);
      ReachableInv(plan, steps[..n]);
      ProgressFalls(Run(Start(plan), steps[..n]), steps[n]);
    }
  }

  /** Work is bounded by the plan alone, whatever the interleaving: five steps per allowed attempt. */
  lemma ProgressIsBounded(plan: seq<Kind>, steps: seq<Step>)
    ensures Progressing(Start(plan), steps) <= 5 * Capacity(plan)
  {
    ProgressSpendsMeasure(plan, steps);
    ReachableInv(plan, steps);
    MeasureBounds(Run(Start(plan), steps), |plan|);
    MeasureAtStart(plan, |plan|);
    assert plan[..|plan|] == plan;
  }
}
