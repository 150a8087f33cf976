/**
 * When the stored status of a playbook run tells the truth about its plan: exactly while no refresh reads the rows
 * wrongly, which takes another session that overtakes the reader.
 */
module PlaybookStatus {
  import opened Prelude
  import opened Playbooks
  import opened PlaybookRuns
  import opened PlaybookOrder

  /** The whole stored plan succeeded. */
  predicate Complete(s: Sys) { Done(s.rows, |s.plan|) }

  predicate AllSucceeded(rows: map<nat, Row>) { forall i :: i in rows ==> rows[i].status.Succeeded? }

  lemma SummarizeSucceeded(rows: map<nat, Row>)
    ensures Summarize(Statuses(rows)).RunSucceeded? <==> AllSucceeded(rows)
  {
    var values := Statuses(rows);
    if AllSucceeded(rows) {
      assert forall v :: v in values ==> v == Succeeded;
      if values != {} {
        var v :| v in values;
        assert values == {Succeeded};
      }
    } else {
      var i :| i in rows && !rows[i].status.Succeeded?;
      assert rows[i].status in values;
    }
  }

  ghost predicate Recorded(s: Sys, steps: seq<Step>, k: nat, status: RunStatus) {
    k <= |steps| && status == Summarize(Statuses(Run(s, steps[..k]).rows))
  }

  ghost predicate Witnessed(s: Sys, steps: seq<Step>, status: RunStatus) {
    exists k: nat :: Recorded(s, steps, k, status)
  }

  lemma WitnessedLater(s: Sys, steps: seq<Step>, step: Step, status: RunStatus)
    requires Witnessed(s, steps, status)
    ensures Witnessed(s, steps + [step], status)
  {
    var k: nat :| Recorded(s, steps, k, status);
    assert (steps + [step])[..k] == steps[..k];
    assert Recorded(s, steps + [step], k, status);
  }

  ghost predicate StatusesWitnessed(s: Sys, steps: seq<Step>, now: Sys) {
    && (now.status.RunRunning? || Witnessed(s, steps, now.status))
    && forall a :: a in now.sessions && now.sessions[a].Write? ==> Witnessed(s, steps, now.sessions[a].status)
  }

  /** Only a refresh creates a pending write, from the rows of that moment, and only a pending write sets the status. */
  lemma WritesComeFromReads(s: Sys, step: Step)
    ensures var s' := Next(s, step);
            && (s'.status == s.status
                || exists a :: a in s.sessions && s.sessions[a].Write? && s.sessions[a].status == s'.status)
            && forall a :: a in s'.sessions && s'.sessions[a].Write? ==>
                 (a in s.sessions && s.sessions[a] == s'.sessions[a])
                 || s'.sessions[a].status == Summarize(Statuses(s.rows))
  {}

  lemma {:induction false} StatusesComeFromRows(s: Sys, steps: seq<Step>)
    requires s.status.RunRunning? && s.sessions == map[]
    ensures StatusesWitnessed(s, steps, Run(s, steps))
    decreases |steps|
  {
    if steps != [] {
      var n := |steps| - 1;
      var mid, last := Run(s, steps[..n]), Run(s, steps);
      StatusesComeFromRows(s, steps[..n]);
      WritesComeFromReads(mid, steps[n]);
      hide Next, Summarize;
      assert steps == steps[..n] + [steps[n]];
      forall status | Witnessed(s, steps[..n], status) ensures Witnessed(s, steps, status) {
        WitnessedLater(s, steps[..n], steps[n], status);
      }
      assert Recorded(s, steps, n, Summarize(Statuses(mid.rows)));
    }
  }

  /** The stored status is the initial one, or what the summary gives for the rows of some earlier moment. */
  lemma StatusWasOnceTrue(plan: seq<Kind>, steps: seq<Step>)
    ensures var status := Run(Start(plan), steps).status;
            status.RunRunning? || Witnessed(Start(plan), steps, status)
  {
    StatusesComeFromRows(Start(plan), steps);
  }

  // ---- Exactly which reads make the status lie ----------------------------------------------

  /** Neither the stored status nor one that a session is about to write claims more than the plan achieved. */
  ghost predicate HonestStatus(s: Sys) {
    && (s.status.RunSucceeded? ==> Complete(s))
    && forall a :: a in s.sessions && s.sessions[a].Write? && s.sessions[a].status.RunSucceeded? ==> Complete(s)
  }

  /** A session reads `succeeded` off the rows while the plan has further actions. */
  predicate WrongRead(s: Sys, step: Step) {
    && step.RefreshReadStep? && step.a in s.sessions && s.sessions[step.a].Refresh?
    && AllSucceeded(s.rows) && |s.rows| < |s.plan|
  }

  lemma PrefixComplete(s: Sys)
    requires Inv(s)
    ensures |s.rows| <= |s.plan|
    ensures Complete(s) <==> AllSucceeded(s.rows) && |s.rows| == |s.plan|
  {
    assert |s.rows| !in s.rows;
  }

  lemma NextHonest(s: Sys, step: Step)
    requires Inv(s) && HonestStatus(s) && !WrongRead(s, step)
    ensures HonestStatus(Next(s, step))
  {
    hide Inv;
    PrefixComplete(s);
    SummarizeSucceeded(s.rows);
    NextExtends(s, step);
    WritesComeFromReads(s, step);
    OnlyReadsWrite(s, step);
    hide Next, Summarize;
  }

  /** A pending write that was not there before comes from the reading session, and that step changes no row. */
  lemma OnlyReadsWrite(s: Sys, step: Step)
    ensures var s' := Next(s, step);
            forall a :: a in s'.sessions && s'.sessions[a].Write? && !(a in s.sessions && s.sessions[a] == s'.sessions[a]) ==>
              step == RefreshReadStep(a) && a in s.sessions && s.sessions[a].Refresh?
    ensures step.RefreshReadStep? ==> Next(s, step).rows == s.rows
    ensures Next(s, step).plan == s.plan
  {}

  lemma WrongReadLies(s: Sys, step: Step)
    requires Inv(s) && WrongRead(s, step)
    ensures !HonestStatus(Next(s, step))
  {
    PrefixComplete(s);
    SummarizeSucceeded(s.rows);
    hide Inv, Summarize;
    assert Next(s, step).sessions[step.a] == Write(RunSucceeded);
  }

  ghost predicate HonestThroughout(s: Sys, steps: seq<Step>) {
    forall n :: 0 <= n <= |steps| ==> HonestStatus(Run(s, steps[..n]))
  }

  ghost predicate NoWrongRead(s: Sys, steps: seq<Step>) {
    forall n :: 0 <= n < |steps| ==> !WrongRead(Run(s, steps[..n]), steps[n])
  }

  lemma {:induction false} HonestRun(plan: seq<Kind>, steps: seq<Step>, n: nat)
    requires NoWrongRead(Start(plan), steps) && n <= |steps|
    ensures HonestStatus(Run(Start(plan), steps[..n]))
  {
    hide Next, WrongRead;
    if n == 0 {
      RunNothing(Start(plan));
      assert steps[..0] == [];
    } else {
      HonestRun(plan, steps, n - 1);
      ReachableInv(plan, steps[..n - 1]);
      RunStep(Start(plan), steps, n - 1);
      NextHonest(Run(Start(plan), steps[..n - 1]), steps[n - 1]);
    }
  }

  /**
   * However its sessions overlap, a run keeps the stored and every pending status honest iff no session reads
   * the rows for its refresh at a moment when they have all succeeded and the plan has further actions.
   */
  lemma HonestExactlyWhenReadsAre(plan: seq<Kind>, steps: seq<Step>)
    ensures HonestThroughout(Start(plan), steps) <==> NoWrongRead(Start(plan), steps)
  {
    hide Next, WrongRead, HonestStatus;
    var s := Start(plan);
    if NoWrongRead(s, steps) {
      forall n | 0 <= n <= |steps| ensures HonestStatus(Run(s, steps[..n])) { HonestRun(plan, steps, n); }
    }
    if HonestThroughout(s, steps) {
      forall n | 0 <= n < |steps| ensures !WrongRead(Run(s, steps[..n]), steps[n]) {
        ReachableInv(plan, steps[..n]);
        RunStep(s, steps, n);
        assert HonestStatus(Run(s, steps[..n + 1]));
        if WrongRead(Run(s, steps[..n]), steps[n]) { WrongReadLies(Run(s, steps[..n]), steps[n]); }
      }
    }
  }

  // ---- A wrong read was overtaken -----------------------------------------------------------

  /** The session works on action i, or has given up and will refresh. */
  predicate StopsAt(phase: Phase, i: nat) {
    phase.Refresh? || ((phase.Deliver? || phase.Persist?) && phase.i == i)
  }

  predicate Unfinished(rows: map<nat, Row>, i: nat) { i in rows && !rows[i].status.Succeeded? }

  /** With step k another party succeeded action i under session a, and the session stayed open ever since. */
  ghost predicate Overtaken(s: Sys, steps: seq<Step>, a: nat, k: nat, i: nat) {
    && k < |steps| && steps[k].a != a
    && a in Run(s, steps[..k]).sessions && StopsAt(Run(s, steps[..k]).sessions[a], i)
    && Unfinished(Run(s, steps[..k]).rows, i)
    && i in Run(s, steps[..k + 1]).rows && !Unfinished(Run(s, steps[..k + 1]).rows, i)
    && forall m :: k <= m <= |steps| ==> a in Run(s, steps[..m]).sessions
  }

  ghost predicate WasOvertaken(s: Sys, steps: seq<Step>, a: nat, i: nat) {
    exists k: nat :: Overtaken(s, steps, a, k, i)
  }

  lemma OvertakenLater(s: Sys, steps: seq<Step>, step: Step, a: nat, i: nat)
    requires WasOvertaken(s, steps, a, i) && a in Run(s, steps + [step]).sessions
    ensures WasOvertaken(s, steps + [step], a, i)
  {
    hide Run, StopsAt, Unfinished;
    var k: nat :| Overtaken(s, steps, a, k, i);
    var all := steps + [step];
    assert all[..k] == steps[..k] && all[..k + 1] == steps[..k + 1];
    forall m | k <= m <= |all| ensures a in Run(s, all[..m]).sessions {
      assert if m == |all| then all[..m] == all else all[..m] == steps[..m];
    }
    assert Overtaken(s, all, a, k, i);
  }

  lemma OvertakenNow(s: Sys, steps: seq<Step>, step: Step, a: nat, i: nat)
    requires var now := Run(s, steps);
             a in now.sessions && step.a != a && StopsAt(now.sessions[a], i) && Unfinished(now.rows, i)
    requires var next := Run(s, steps + [step]); a in next.sessions && i in next.rows && !Unfinished(next.rows, i)
    ensures WasOvertaken(s, steps + [step], a, i)
  {
    hide Run, StopsAt, Unfinished;
    var n, all := |steps|, steps + [step];
    assert all[..n] == steps && all[..n + 1] == all;
    assert Overtaken(s, all, a, n, i);
  }

  /** What keeps session a's refresh honest: an unfinished row it stopped at, unless it was overtaken there. */
  ghost predicate Excused(s: Sys, steps: seq<Step>, rows: map<nat, Row>, a: nat, i: nat) {
    i in rows && (Unfinished(rows, i) || WasOvertaken(s, steps, a, i))
  }

  ghost predicate Waits(s: Sys, steps: seq<Step>, now: Sys, a: nat, phase: Phase) {
    && (phase.Deliver? || phase.Persist? ==> Excused(s, steps, now.rows, a, phase.i))
    && (phase.Refresh? ==> Complete(now) || exists i: nat :: Excused(s, steps, now.rows, a, i))
  }

  ghost predicate AllWait(s: Sys, steps: seq<Step>) {
    forall a :: a in Run(s, steps).sessions ==> Waits(s, steps, Run(s, steps), a, Run(s, steps).sessions[a])
  }

  /** Where a step leaves its own session. */
  ghost predicate Lands(s: Sys, s': Sys, a: nat, phase: Phase) {
    && (phase.Deliver? ==> Unfinished(s'.rows, phase.i))
    && (phase.Persist? ==> a in s.sessions && StopsAt(s.sessions[a], phase.i) && !s.sessions[a].Refresh? && s'.rows == s.rows)
    && (phase.Refresh? ==>
          || Complete(s') || (exists i: nat :: Unfinished(s'.rows, i))
          || (a in s.sessions && s.sessions[a].Persist? && s'.rows == s.rows))
  }

  ghost predicate LandsSafely(s: Sys, s': Sys, a: nat) { a in s'.sessions ==> Lands(s, s', a, s'.sessions[a]) }

  lemma InsertLands(s: Sys, a: nat, now: int)
    requires Inv(s)
    ensures s.sessions != Insert(s, a, now).sessions ==> LandsSafely(s, Insert(s, a, now), a)
  {
    if a in s.sessions && s.sessions[a].Walk? {
      assert SessionOk(s.plan, s.rows, s.calls, a, s.sessions[a]);
      var i := s.sessions[a].i;
      var s' := Insert(s, a, now);
      if i < |s.plan| && i !in s.rows { assert Unfinished(s'.rows, i); }
    }
  }

  lemma ReadLands(s: Sys, a: nat)
    requires Inv(s)
    ensures s.sessions != Read(s, a).sessions ==> LandsSafely(s, Read(s, a), a)
  {
    if a in s.sessions && s.sessions[a].Look? {
      assert SessionOk(s.plan, s.rows, s.calls, a, s.sessions[a]);
      var i := s.sessions[a].i;
      if !s.rows[i].status.Succeeded? { assert Unfinished(Read(s, a).rows, i); }
    }
  }

  lemma SettleLands(s: Sys, a: nat, now: int)
    ensures s.sessions != Settle(s, a, now).sessions ==> LandsSafely(s, Settle(s, a, now), a)
  {
    if a in s.sessions && s.sessions[a].Persist? {
      var i := s.sessions[a].i;
      if i in s.rows && LeasedTo(s.rows[i], a) && Settle(s, a, now).sessions[a].Refresh? {
        assert Unfinished(Settle(s, a, now).rows, i);
      }
    }
  }

  lemma StartLands(s: Sys, a: nat, i: nat, now: int, ok: bool, replay: bool)
    ensures s.sessions != Claim(s, a, i, now).sessions ==> LandsSafely(s, Claim(s, a, i, now), a)
    ensures s.sessions != Acknowledge(s, a, i, ok, replay).sessions ==> LandsSafely(s, Acknowledge(s, a, i, ok, replay), a)
    ensures s.sessions != Requeue(s, a, i, now).sessions ==> LandsSafely(s, Requeue(s, a, i, now), a)
  {
    assert Acknowledge(s, a, i, false, replay) != s ==> Unfinished(Acknowledge(s, a, i, false, replay).rows, i);
    assert Requeue(s, a, i, now) != s ==> Unfinished(Requeue(s, a, i, now).rows, i);
  }

  lemma FinalizeLands(s: Sys, a: nat, now: int)
    ensures s.sessions != Finalize(s, a, now).sessions ==> LandsSafely(s, Finalize(s, a, now), a)
  {
    if i :| i in s.rows && Exhausted(s.rows[i], now) {
      if a !in s.sessions { assert Unfinished(Finalize(s, a, now).rows, i); }
    }
  }

  lemma StepLands(s: Sys, step: Step)
    requires Inv(s)
    ensures s.sessions != Next(s, step).sessions ==> LandsSafely(s, Next(s, step), step.a)
  {
    hide Inv, LandsSafely, Insert, Read, Settle, Claim, Finalize, Acknowledge, Requeue;
    match step
    case InsertStep(a, now) => InsertLands(s, a, now);
    case ReadStep(a) => ReadLands(s, a);
    case SettleStep(a, now) => SettleLands(s, a, now);
    case ClaimStep(a, i, now) => StartLands(s, a, i, now, true, true);
    case FinalizeStep(a, now) => FinalizeLands(s, a, now);
    case AckStep(a, i, ok, replay) => StartLands(s, a, i, 0, ok, replay);
    case RequeueStep(a, i, now) => StartLands(s, a, i, now, true, true);
    case _ => PlainLands(s, step);
  }

  lemma PlainLands(s: Sys, step: Step)
    requires step.OpenStep? || step.CallStep? || step.RefreshReadStep? || step.RefreshWriteStep? || step.StopStep?
    ensures s.sessions != Next(s, step).sessions ==> LandsSafely(s, Next(s, step), step.a)
  {
    hide Summarize;
  }

  /** A step moves no session but its own, and writes no row unless it moves that one. */
  lemma OthersStay(s: Sys, step: Step)
    ensures var s' := Next(s, step);
            && (forall b :: b != step.a ==> (b in s'.sessions <==> b in s.sessions))
            && (forall b :: b in s.sessions && b != step.a ==> s'.sessions[b] == s.sessions[b])
            && (s'.sessions == s.sessions ==> s'.rows == s.rows)
  {
    hide Summarize, Settled, FirstRow;
  }

  /** A session that did not act waits as before, or has just been overtaken. */
  lemma BystanderWaits(s: Sys, steps: seq<Step>, step: Step, a: nat)
    requires AllWait(s, steps) && a in Run(s, steps).sessions && a in Run(s, steps + [step]).sessions
    requires Run(s, steps + [step]).sessions[a] == Run(s, steps).sessions[a]
    requires step.a != a || Run(s, steps + [step]).rows == Run(s, steps).rows
    requires Extends(Run(s, steps), Run(s, steps + [step])) && Run(s, steps + [step]).plan == Run(s, steps).plan
    ensures Waits(s, steps + [step], Run(s, steps + [step]), a, Run(s, steps).sessions[a])
  {
    hide Run;
    var now, next := Run(s, steps), Run(s, steps + [step]);
    var phase := now.sessions[a];
    assert Waits(s, steps, now, a, phase);
    forall i: nat | Excused(s, steps, now.rows, a, i) && StopsAt(phase, i) ensures Excused(s, steps + [step], next.rows, a, i) {
      if WasOvertaken(s, steps, a, i) {
        OvertakenLater(s, steps, step, a, i);
      } else if !Unfinished(next.rows, i) {
        OvertakenNow(s, steps, step, a, i);
      }
    }
    hide Excused;
  }

  /** The acting session lands where nothing is wrong, or carries on what it was overtaken at. */
  lemma ActorWaits(s: Sys, steps: seq<Step>, step: Step, a: nat)
    requires AllWait(s, steps) && a in Run(s, steps + [step]).sessions
    requires Lands(Run(s, steps), Run(s, steps + [step]), a, Run(s, steps + [step]).sessions[a])
    ensures Waits(s, steps + [step], Run(s, steps + [step]), a, Run(s, steps + [step]).sessions[a])
  {
    hide Run;
    var now, next := Run(s, steps), Run(s, steps + [step]);
    if a in now.sessions && (now.sessions[a].Deliver? || now.sessions[a].Persist?) && next.rows == now.rows {
      var i := now.sessions[a].i;
      assert Waits(s, steps, now, a, now.sessions[a]);
      if WasOvertaken(s, steps, a, i) { OvertakenLater(s, steps, step, a, i); }
      assert Excused(s, steps + [step], next.rows, a, i);
    }
    if i: nat :| Unfinished(next.rows, i) { assert Excused(s, steps + [step], next.rows, a, i); }
    hide WasOvertaken;
  }

  lemma NextWaits(s: Sys, steps: seq<Step>, step: Step)
    requires Inv(Run(s, steps)) && AllWait(s, steps)
    ensures AllWait(s, steps + [step])
  {
    hide Inv, Next, Run, Waits, Lands, Extends;
    var now, next := Run(s, steps), Run(s, steps + [step]);
    RunSnoc(s, steps, step);
    StepLands(now, step);
    OthersStay(now, step);
    NextExtends(now, step);
    RunPlan(s, steps);
    RunPlan(s, steps + [step]);
    forall a | a in next.sessions ensures Waits(s, steps + [step], next, a, next.sessions[a]) {
      if a != step.a || now.sessions == next.sessions {
        BystanderWaits(s, steps, step, a);
      } else {
        ActorWaits(s, steps, step, a);
      }
    }
  }

  lemma {:induction false} RunWaits(plan: seq<Kind>, steps: seq<Step>)
    ensures AllWait(Start(plan), steps)
    decreases |steps|
  {
    if steps == [] {
      RunNothing(Start(plan));
    } else {
      hide Next, Waits;
      var n := |steps| - 1;
      RunWaits(plan, steps[..n]);
      ReachableInv(plan, steps[..n]);
      NextWaits(Start(plan), steps[..n], steps[n]);
      assert steps == steps[..n] + [steps[n]];
    }
  }

  /** A session reads wrongly only if another one succeeded the action it had stopped at, while it was open. */
  lemma WrongReadWasOvertaken(plan: seq<Kind>, steps: seq<Step>, a: nat)
    requires WrongRead(Run(Start(plan), steps), RefreshReadStep(a))
    ensures exists k: nat, i: nat :: Overtaken(Start(plan), steps, a, k, i)
  {
    hide Next, Run, Inv;
    var s := Run(Start(plan), steps);
    RunWaits(plan, steps);
    ReachableInv(plan, steps);
    PrefixComplete(s);
    assert Waits(Start(plan), steps, s, a, Refresh);
    var i: nat :| Excused(Start(plan), steps, s.rows, a, i);
    assert WasOvertaken(Start(plan), steps, a, i);
  }

  // ---- Sessions that do not overlap ---------------------------------------------------------

  /** A session starts only while none is open. */
  predicate Alone(s: Sys, step: Step) {
    match step
    case OpenStep(_) => s.sessions == map[]
    case ClaimStep(_, _, _) => s.sessions == map[]
    case FinalizeStep(_, _) => s.sessions == map[]
    case AckStep(_, _, _, _) => s.sessions == map[]
    case RequeueStep(_, _, _) => s.sessions == map[]
    case _ => true
  }

  ghost predicate NeverOverlap(s: Sys, steps: seq<Step>) {
    forall k :: 0 <= k < |steps| ==> Alone(Run(s, steps[..k]), steps[k])
  }

  predicate OneSession(s: Sys) { forall a, b :: a in s.sessions && b in s.sessions ==> a == b }

  lemma NextAlone(s: Sys, step: Step)
    requires OneSession(s) && Alone(s, step)
    ensures OneSession(Next(s, step))
    ensures forall a :: a in s.sessions && a != step.a ==> Next(s, step).rows == s.rows
  {
    hide Summarize, Settled, FirstRow;
  }

  lemma {:induction false} RunAlone(s: Sys, steps: seq<Step>, k: nat)
    requires NeverOverlap(s, steps) && s.sessions == map[] && k <= |steps|
    ensures OneSession(Run(s, steps[..k]))
  {
    if k == 0 {
      assert steps[..0] == [];
    } else {
      RunAlone(s, steps, k - 1);
      RunStep(s, steps, k - 1);
      NextAlone(Run(s, steps[..k - 1]), steps[k - 1]);
    }
  }

  /** Nobody can overtake a session that is alone. */
  lemma AloneIsNotOvertaken(s: Sys, steps: seq<Step>, n: nat, a: nat, k: nat, i: nat)
    requires NeverOverlap(s, steps) && s.sessions == map[] && n <= |steps|
    ensures !Overtaken(s, steps[..n], a, k, i)
  {
    hide Next, Run;
    if Overtaken(s, steps[..n], a, k, i) {
      assert steps[..n][..k] == steps[..k] && steps[..n][..k + 1] == steps[..k + 1] && steps[..n][k] == steps[k];
      RunAlone(s, steps, k);
      RunStep(s, steps, k);
      NextAlone(Run(s, steps[..k]), steps[k]);
    }
  }

  /** With sessions that do not overlap, and crashes anywhere, `succeeded` means the whole stored plan succeeded. */
  lemma SucceededMeansComplete(plan: seq<Kind>, steps: seq<Step>)
    requires NeverOverlap(Start(plan), steps)
    requires Run(Start(plan), steps).status.RunSucceeded?
    ensures forall i: nat :: i < |plan| ==>
              i in Run(Start(plan), steps).rows && Run(Start(plan), steps).rows[i].status.Succeeded?
  {
    hide Next, Run, WrongRead, Overtaken;
    var s := Start(plan);
    forall n | 0 <= n < |steps| ensures !WrongRead(Run(s, steps[..n]), steps[n]) {
      if WrongRead(Run(s, steps[..n]), steps[n]) { LoneReadIsRight(plan, steps, n); }
    }
    HonestRun(plan, steps, |steps|);
    assert steps[..|steps|] == steps;
    RunPlan(s, steps);
  }

  lemma LoneReadIsRight(plan: seq<Kind>, steps: seq<Step>, n: nat)
    requires NeverOverlap(Start(plan), steps) && n < |steps|
    ensures !WrongRead(Run(Start(plan), steps[..n]), steps[n])
  {
    hide Next, Run, Overtaken;
    if WrongRead(Run(Start(plan), steps[..n]), steps[n]) {
      var a := steps[n].a;
      WrongReadWasOvertaken(plan, steps[..n], a);
      var k: nat, i: nat :| Overtaken(Start(plan), steps[..n], a, k, i);
      AloneIsNotOvertaken(Start(plan), steps, n, a, k, i);
    }
  }

  // ---- Sessions that do overlap -------------------------------------------------------------

  const TwoActions: seq<Kind> := [Webhook, Control]

  const Delivered := Outcome(true, false, None)

  /** Session 1 stops at the running webhook, session 0 settles it and crashes, then session 1 refreshes. */
  const OverlapTrace: seq<Step> := [
    OpenStep(0), InsertStep(0, 0), OpenStep(1), InsertStep(1, 1), ReadStep(1),
    CallStep(0, Delivered), SettleStep(0, 2), StopStep(0), RefreshReadStep(1), RefreshWriteStep(1)]

  /** The runs the continuation worker picks up. */
  predicate Resumable(s: Sys) {
    && (s.status.RunRunning? || s.status.RunRetrying? || s.status.RunAwaitingAck?)
    && forall i :: i in s.rows ==> !NonTerminal(s.rows[i])
  }

  lemma OverlapFirstHalf()
    ensures var s := Run(Start(TwoActions), OverlapTrace[..5]);
            s.plan == TwoActions && s.status.RunRunning? && s.calls == []
            && s.rows == map[0 := FirstRow(Webhook, 0, 0)]
            && s.sessions == map[0 := Deliver(0, 1, false), 1 := Refresh]
  {
    var s, t := Start(TwoActions), OverlapTrace;
    assert t[..0] == [];
    RunStep(s, t, 0);
    RunStep(s, t, 1);
    RunStep(s, t, 2);
    RunStep(s, t, 3);
    RunStep(s, t, 4);
    assert Run(s, t[..1]).sessions == map[0 := Walk(0)];
    assert Run(s, t[..3]).sessions == map[0 := Deliver(0, 1, false), 1 := Walk(0)];
    assert Run(s, t[..4]).sessions == map[0 := Deliver(0, 1, false), 1 := Look(0)];
  }

  lemma OverlapCall()
    ensures var s := Run(Start(TwoActions), OverlapTrace[..6]);
            s.plan == TwoActions && s.status.RunRunning? && s.rows == map[0 := FirstRow(Webhook, 0, 0)]
            && s.sessions == map[0 := Persist(0, 1, false, Delivered), 1 := Refresh]
  {
    OverlapFirstHalf();
    RunStep(Start(TwoActions), OverlapTrace, 5);
  }

  lemma OverlapSecondHalf()
    ensures var s := Run(Start(TwoActions), OverlapTrace[..8]);
            s.status.RunRunning? && s.rows.Keys == {0} && s.rows[0].status.Succeeded? && s.sessions == map[1 := Refresh]
            && s.plan == TwoActions
  {
    hide Summarize, Backoff;
    var s, t := Start(TwoActions), OverlapTrace;
    OverlapCall();
    RunStep(s, t, 6);
    assert Run(s, t[..7]).sessions == map[0 := Walk(1), 1 := Refresh];
    RunStep(s, t, 7);
  }

  lemma RepeatedRequestInserts(s: Sys)
    requires s.sessions == map[] && s.plan == TwoActions && s.rows.Keys == {0} && s.rows[0].status.Succeeded?
    ensures 1 in Insert(Read(Insert(Open(s, 0), 0, 3), 0), 0, 4).rows
  {
    assert Insert(Open(s, 0), 0, 3).sessions == map[0 := Look(0)];
    assert Read(Insert(Open(s, 0), 0, 3), 0).sessions == map[0 := Walk(1)];
  }

  /**
   * Overlapping sessions can leave an unfinished plan marked `succeeded`. The continuation worker never picks such
   * a run up; a repeated request does carry it on with the next action.
   */
  lemma OverlapCanLie()
    ensures var s := Run(Start(TwoActions), OverlapTrace);
            s.status.RunSucceeded? && s.sessions == map[] && |s.rows| < |TwoActions| && !Complete(s) && !Resumable(s)
    ensures 1 in Insert(Read(Insert(Open(Run(Start(TwoActions), OverlapTrace), 0), 0, 3), 0), 0, 4).rows
  {
    hide Insert, Read, Open;
    var s, t := Start(TwoActions), OverlapTrace;
    OverlapSecondHalf();
    var before := Run(s, t[..8]);
    SummarizeSucceeded(before.rows);
    hide Summarize, OverlapTrace;
    RunStep(s, t, 8);
    RunStep(s, t, 9);
    assert t[..10] == t;
    assert |before.rows| == |before.rows.Keys| == 1;
    assert 1 !in before.rows;
    RepeatedRequestInserts(Run(s, t));
  }
}
