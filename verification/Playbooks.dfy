/**
 * One playbook run as a state machine (playbooks.py).
 *
 * The result rows and the run row are shared; executors, retry workers, acknowledgers and operators act on
 * them. A label of `Step` is one statement; a session may stop between any two of its statements.
 */
module Playbooks {
  import opened Prelude

  const WEBHOOK_MAX_ATTEMPTS := 5
  const RETRY_BASE_SECONDS := 5
  const RETRY_CAP_SECONDS := 300
  const WEBHOOK_LEASE_SECONDS := 30

  datatype Kind = Webhook | Control | Other

  datatype Status = Running | RetryScheduled | AwaitingAck | Succeeded | Failed | Unsupported

  datatype RunStatus = RunRunning | RunRetrying | RunAwaitingAck | RunSucceeded | RunUnsupported | RunFailed | RunPartial

  /** A playbook_action_results row; its plan key is its position in the stored plan. */
  datatype Row = Row(
    kind: Kind, status: Status, attempt: nat, maxAttempts: nat,
    owner: Option<nat>, leaseExpiresAt: Option<int>, nextAttemptAt: Option<int>)

  /** What a webhook call reports. */
  datatype Outcome = Outcome(ok: bool, retryable: bool, retryAfter: Option<int>)

  /** Where a session stands between two statements. */
  datatype Phase =
    | Walk(i: nat)
    | Look(i: nat)
    | Deliver(i: nat, attempt: nat, retry: bool)
    | Persist(i: nat, attempt: nat, retry: bool, outcome: Outcome)
    | Refresh
    | Write(status: RunStatus)

  /** One webhook call: plan position and attempt number. */
  datatype Token = Token(action: nat, attempt: nat)

  /** `calls` is the history of webhook calls. */
  datatype Sys = Sys(
    plan: seq<Kind>, rows: map<nat, Row>, status: RunStatus, sessions: map<nat, Phase>, calls: seq<Token>)

  function Start(plan: seq<Kind>): Sys { Sys(plan, map[], RunRunning, map[], []) }

  // ---- Pure helpers -------------------------------------------------------------------------

  function MaxAttempts(kind: Kind): nat { if kind.Webhook? then WEBHOOK_MAX_ATTEMPTS else 1 }

  function Summarize(values: set<Status>): RunStatus {
    if values == {} then RunSucceeded
    else if Running in values then RunRunning
    else if RetryScheduled in values then RunRetrying
    else if AwaitingAck in values then RunAwaitingAck
    else if values == {Succeeded} then RunSucceeded
    else if values == {Unsupported} then RunUnsupported
    else if values == {Failed} then RunFailed
    else RunPartial
  }

  function Statuses(rows: map<nat, Row>): set<Status> { set i | i in rows :: rows[i].status }

  function Backoff(attempt: nat, retryAfter: Option<int>): int {
    var delay := Min(RETRY_CAP_SECONDS, RETRY_BASE_SECONDS * Pow2(Max(0, Min(attempt - 1, 10))));
    Min(if retryAfter.Some? then Max(delay, Min(Max(0, retryAfter.value), RETRY_CAP_SECONDS)) else delay,
        RETRY_CAP_SECONDS)
  }

  function DurableStatus(outcome: Outcome, attempt: nat, maxAttempts: nat): Status {
    if outcome.ok then Succeeded
    else if outcome.retryable && attempt < maxAttempts then RetryScheduled
    else Failed
  }

  // ---- Row updates --------------------------------------------------------------------------

  function FirstRow(kind: Kind, owner: nat, now: int): Row {
    match kind
    case Webhook => Row(Webhook, Running, 1, MaxAttempts(kind), Some(owner), Some(now + WEBHOOK_LEASE_SECONDS), None)
    case Control => Row(Control, AwaitingAck, 1, MaxAttempts(kind), None, None, None)
    case Other => Row(Other, Unsupported, 1, MaxAttempts(kind), None, None, None)
  }

  predicate LeasedTo(row: Row, owner: nat) { row.status.Running? && row.owner == Some(owner) }

  function Settled(row: Row, outcome: Outcome, attempt: nat, now: int): Row {
    var status := DurableStatus(outcome, attempt, row.maxAttempts);
    row.(status := status, owner := None, leaseExpiresAt := None,
         nextAttemptAt := if status.RetryScheduled? then Some(now + Backoff(attempt, outcome.retryAfter)) else None)
  }

  predicate Due(row: Row, now: int) {
    && row.kind.Webhook? && row.attempt < row.maxAttempts
    && (|| (row.status.RetryScheduled? && Lapsed(row.nextAttemptAt, now)
            && (row.leaseExpiresAt.None? || Lapsed(row.leaseExpiresAt, now)))
        || (row.status.Running? && Lapsed(row.leaseExpiresAt, now)))
  }

  function Reclaimed(row: Row, owner: nat, now: int): Row {
    row.(status := Running, attempt := row.attempt + 1, nextAttemptAt := None,
         owner := Some(owner), leaseExpiresAt := Some(now + WEBHOOK_LEASE_SECONDS))
  }

  predicate Exhausted(row: Row, now: int) {
    row.kind.Webhook? && row.status.Running? && row.attempt >= row.maxAttempts && Lapsed(row.leaseExpiresAt, now)
  }

  function Finalized(row: Row, now: int): Row {
    if Exhausted(row, now) then
      row.(status := Status.Failed, nextAttemptAt := None, owner := None, leaseExpiresAt := None)
    else row
  }

  function FinalizeAll(rows: map<nat, Row>, now: int): map<nat, Row> {
    map i | i in rows :: Finalized(rows[i], now)
  }

  function AckStatus(ok: bool): Status { if ok then Succeeded else Status.Failed }

  predicate CanAck(row: Row) { row.kind.Control? && row.status.AwaitingAck? }

  predicate CanRequeue(row: Row) {
    row.kind.Webhook? && (row.status.Failed? || row.status.RetryScheduled?) && row.attempt < row.maxAttempts
  }

  function Requeued(row: Row, now: int): Row {
    row.(status := RetryScheduled, nextAttemptAt := Some(now), owner := None, leaseExpiresAt := None)
  }

  // ---- Steps --------------------------------------------------------------------------------

  function Goto(s: Sys, a: nat, phase: Phase): Sys { s.(sessions := s.sessions[a := phase]) }

  function End(s: Sys, a: nat): Sys { s.(sessions := s.sessions - {a}) }

  /** A new run, a repeated request, or a continuation starts at the first action. */
  function Open(s: Sys, a: nat): Sys { if a in s.sessions then s else Goto(s, a, Walk(0)) }

  /** INSERT … ON CONFLICT DO NOTHING for the action the session has reached. */
  function Insert(s: Sys, a: nat, now: int): Sys {
    if a !in s.sessions || !s.sessions[a].Walk? then s
    else
      var i := s.sessions[a].i;
      if i >= |s.plan| then Goto(s, a, Refresh)
      else if i in s.rows then Goto(s, a, Look(i))
      else
        Goto(s.(rows := s.rows[i := FirstRow(s.plan[i], a, now)]), a,
             if s.plan[i].Webhook? then Deliver(i, 1, false) else Refresh)
  }

  /** After a conflict: only a succeeded row lets the session walk on. */
  function Read(s: Sys, a: nat): Sys {
    if a !in s.sessions || !s.sessions[a].Look? then s
    else
      var i := s.sessions[a].i;
      Goto(s, a, if i in s.rows && s.rows[i].status.Succeeded? then Walk(i + 1) else Refresh)
  }

  function Call(s: Sys, a: nat, outcome: Outcome): Sys {
    if a !in s.sessions || !s.sessions[a].Deliver? then s
    else
      var p := s.sessions[a];
      Goto(s.(calls := s.calls + [Token(p.i, p.attempt)]), a, Persist(p.i, p.attempt, p.retry, outcome))
  }

  /** Guarded by lease owner and `running`; a retry worker that lost its lease just moves on. */
  function Settle(s: Sys, a: nat, now: int): Sys {
    if a !in s.sessions || !s.sessions[a].Persist? then s
    else
      var p := s.sessions[a];
      if p.i in s.rows && LeasedTo(s.rows[p.i], a) then
        var row := Settled(s.rows[p.i], p.outcome, p.attempt, now);
        Goto(s.(rows := s.rows[p.i := row]), a,
             if row.status.Succeeded? then Walk(if p.retry then 0 else p.i + 1) else Refresh)
      else if p.retry then End(s, a)
      else Goto(s, a, Refresh)
  }

  /** A retry worker works serially, so it claims only while it has no session. */
  function Claim(s: Sys, a: nat, i: nat, now: int): Sys {
    if a in s.sessions || i !in s.rows || !Due(s.rows[i], now) then s
    else
      var row := Reclaimed(s.rows[i], a, now);
      Goto(s.(rows := s.rows[i := row]), a, Deliver(i, row.attempt, true))
  }

  function Finalize(s: Sys, a: nat, now: int): Sys {
    if a in s.sessions || (forall i :: i in s.rows ==> !Exhausted(s.rows[i], now)) then s
    else Goto(s.(rows := FinalizeAll(s.rows, now)), a, Refresh)
  }

  /** `replay` says that reference and metadata repeat those of the recorded decision. */
  function Acknowledge(s: Sys, a: nat, i: nat, ok: bool, replay: bool): Sys {
    if a in s.sessions || i !in s.rows then s
    else if CanAck(s.rows[i]) then
      Goto(s.(rows := s.rows[i := s.rows[i].(status := AckStatus(ok))]), a, if ok then Walk(0) else Refresh)
    else if replay && s.rows[i].kind.Control? && s.rows[i].status == AckStatus(ok) then
      Goto(s, a, if ok then Walk(0) else Refresh)
    else s
  }

  function Requeue(s: Sys, a: nat, i: nat, now: int): Sys {
    if a in s.sessions || i !in s.rows || !CanRequeue(s.rows[i]) then s
    else Goto(s.(rows := s.rows[i := Requeued(s.rows[i], now)]), a, Refresh)
  }

  /** The first half of the status refresh: read and summarize. */
  function RefreshRead(s: Sys, a: nat): Sys {
    if a !in s.sessions || !s.sessions[a].Refresh? then s
    else Goto(s, a, Write(Summarize(Statuses(s.rows))))
  }

  /** The second half, a separate statement: write what was read. */
  function RefreshWrite(s: Sys, a: nat): Sys {
    if a !in s.sessions || !s.sessions[a].Write? then s
    else End(s.(status := s.sessions[a].status), a)
  }

  datatype Step =
    | OpenStep(a: nat)
    | InsertStep(a: nat, now: int)
    | ReadStep(a: nat)
    | CallStep(a: nat, outcome: Outcome)
    | SettleStep(a: nat, now: int)
    | ClaimStep(a: nat, i: nat, now: int)
    | FinalizeStep(a: nat, now: int)
    | AckStep(a: nat, i: nat, ok: bool, replay: bool)
    | RequeueStep(a: nat, i: nat, now: int)
    | RefreshReadStep(a: nat)
    | RefreshWriteStep(a: nat)
    | StopStep(a: nat)

  function Next(s: Sys, step: Step): Sys {
    match step
    case OpenStep(a) => Open(s, a)
    case InsertStep(a, now) => Insert(s, a, now)
    case ReadStep(a) => Read(s, a)
    case CallStep(a, outcome) => Call(s, a, outcome)
    case SettleStep(a, now) => Settle(s, a, now)
    case ClaimStep(a, i, now) => Claim(s, a, i, now)
    case FinalizeStep(a, now) => Finalize(s, a, now)
    case AckStep(a, i, ok, replay) => Acknowledge(s, a, i, ok, replay)
    case RequeueStep(a, i, now) => Requeue(s, a, i, now)
    case RefreshReadStep(a) => RefreshRead(s, a)
    case RefreshWriteStep(a) => RefreshWrite(s, a)
    case StopStep(a) => End(s, a)
  }

  function Run(s: Sys, steps: seq<Step>): Sys
    decreases |steps|
  {
    if steps == [] then s else Next(Run(s, steps[..|steps| - 1]), steps[|steps| - 1])
  }

  lemma RunNothing(s: Sys)
    ensures Run(s, []) == s
  {}

  lemma RunSnoc(s: Sys, steps: seq<Step>, step: Step)
    ensures Run(s, steps + [step]) == Next(Run(s, steps), step)
  {
    assert (steps + [step])[..|steps|] == steps;
  }

  lemma RunStep(s: Sys, steps: seq<Step>, n: nat)
    requires n < |steps|
    ensures Run(s, steps[..n + 1]) == Next(Run(s, steps[..n]), steps[n])
  {
    assert steps[..n + 1][..n] == steps[..n];
  }

  lemma {:induction false} RunConcat(s: Sys, first: seq<Step>, second: seq<Step>)
    ensures Run(s, first + second) == Run(Run(s, first), second)
    decreases |second|
  {
    if second == [] {
      assert first + second == first;
    } else {
      var n := |second| - 1;
      RunConcat(s, first, second[..n]);
      RunSnoc(s, first + second[..n], second[n]);
      assert first + second == first + second[..n] + [second[n]];
    }
  }
}
