/** A worker that loses its lease and then crashes can leave an artifact that nothing will ever remove. */
module ExportOrphanRun {
  import opened Prelude
  import opened Exports
  import opened ExportRuns
  import opened ExportTheorems
  import opened ExportOrphans

  predicate Carries(phase: Phase, k: Key) {
    phase == Clean(k) || phase == Clear(k) || phase == Undo(Some(k))
    || phase == Release(Some(k), true) || phase == Release(Some(k), false)
  }

  /** Stored, not named by its row, and unknown to every worker and sweep. */
  ghost predicate Abandoned(s: Sys, k: Key) {
    && k in s.store && !Pointed(s, k)
    && (forall a :: a in s.workers ==> Own(a, s.workers[a]) != k && !Carries(s.workers[a].phase, k))
    && (forall x :: x in s.sweeps ==> s.sweeps[x].key != k)
  }

  lemma OnlyItsSession(s: Sys, step: Step, a: nat)
    requires Actor(step) == Some(a)
    ensures Next(s, step).sweeps == s.sweeps && Next(s, step).workers.Keys <= s.workers.Keys
    ensures forall b :: b in Next(s, step).workers && b != a ==> Next(s, step).workers[b] == s.workers[b]
  {
    hide Completion, Released, Lapsed;
    match step
    case _ =>
  }

  /** A worker of another attempt, carrying other keys, keeps k stored, unnamed and unknown to itself. */
  predicate Leaves(s: Sys, s': Sys, a: nat, k: Key) {
    && k in s'.store && !Pointed(s', k)
    && (a in s'.workers ==> Own(a, s'.workers[a]) != k && !Carries(s'.workers[a].phase, k))
  }

  predicate Unknown(s: Sys, a: nat, k: Key) {
    && k in s.store && !Pointed(s, k) && k.job in s.jobs
    && (a in s.workers ==> s.workers[a].job in s.jobs && Own(a, s.workers[a]) != k && !Carries(s.workers[a].phase, k))
  }

  lemma WorkerLeavesEarly(s: Sys, step: Step, a: nat, k: Key)
    requires Actor(step) == Some(a) && Unknown(s, a, k)
    requires step.HeartbeatStep? || step.DeleteOldStep? || step.ClearPointerStep? || step.PlanKeyStep? || step.RenewLeaseStep?
    ensures Leaves(s, Next(s, step), a, k)
  {}

  lemma WorkerLeavesLate(s: Sys, step: Step, a: nat, k: Key)
    requires Actor(step) == Some(a) && Unknown(s, a, k)
    requires !(step.HeartbeatStep? || step.DeleteOldStep? || step.ClearPointerStep? || step.PlanKeyStep? || step.RenewLeaseStep?)
    ensures Leaves(s, Next(s, step), a, k)
  {}

  lemma WorkersLeaveIt(s: Sys, step: Step, k: Key)
    requires Inv(s) && Abandoned(s, k) && Actor(step).Some?
    ensures Abandoned(Next(s, step), k)
  {
    hide Next, WorkOk;
    var a := Actor(step).value;
    IsUnknown(s, a, k);
    hide Inv, Unknown;
    OnlyItsSession(s, step, a);
    if step.HeartbeatStep? || step.DeleteOldStep? || step.ClearPointerStep? || step.PlanKeyStep? || step.RenewLeaseStep? {
      WorkerLeavesEarly(s, step, a, k);
    } else {
      WorkerLeavesLate(s, step, a, k);
    }
  }

  lemma IsUnknown(s: Sys, a: nat, k: Key)
    requires Inv(s) && Abandoned(s, k)
    ensures Unknown(s, a, k)
  {}

  lemma ClaimLeavesIt(s: Sys, a: nat, j: nat, k: Key)
    requires Abandoned(s, k) && KeyOk(s.jobs, k) && JobsOk(s.jobs)
    ensures Abandoned(Claim(s, a, j), k)
  {}

  lemma TablesLeaveIt(s: Sys, now: int, j: nat, maxAttempts: nat, k: Key)
    requires Abandoned(s, k) && KeyOk(s.jobs, k)
    ensures Abandoned(Tick(s, now), k) && Abandoned(Recover(s), k) && Abandoned(Create(s, j, maxAttempts), k)
  {}

  lemma SweepsLeaveIt(s: Sys, x: nat, j: nat, k: Key)
    requires Abandoned(s, k) && KeyOk(s.jobs, k) && JobsOk(s.jobs)
    ensures Abandoned(ExpireRead(s, x, j), k) && Abandoned(ExpireDelete(s, x), k) && Abandoned(ExpireStop(s, x), k)
  {}

  lemma ClearLeavesIt(s: Sys, x: nat, k: Key)
    requires Abandoned(s, k) && KeyOk(s.jobs, k)
    ensures Abandoned(ExpireClear(s, x), k)
  {}

  lemma PostponeLeavesIt(s: Sys, x: nat, k: Key)
    requires Abandoned(s, k) && KeyOk(s.jobs, k)
    ensures Abandoned(ExpirePostpone(s, x), k)
  {}

  lemma OthersLeaveIt(s: Sys, step: Step, k: Key)
    requires Inv(s) && Abandoned(s, k) && Actor(step).None?
    ensures Abandoned(Next(s, step), k)
  {
    assert KeyOk(s.jobs, k);
    assert JobsOk(s.jobs);
    hide Inv, Abandoned, KeyOk, JobsOk;
    match step
    case TickStep(now) => TablesLeaveIt(s, now, 0, 0, k);
    case CreateStep(j, maxAttempts) => TablesLeaveIt(s, 0, j, maxAttempts, k);
    case RecoverStep => TablesLeaveIt(s, 0, 0, 0, k);
    case ClaimStep(a, j) => ClaimLeavesIt(s, a, j, k);
    case ExpireReadStep(x, j) => SweepsLeaveIt(s, x, j, k);
    case ExpireDeleteStep(x) => SweepsLeaveIt(s, x, 0, k);
    case ExpireStopStep(x) => SweepsLeaveIt(s, x, 0, k);
    case ExpireClearStep(x) => ClearLeavesIt(s, x, k);
    case ExpirePostponeStep(x) => PostponeLeavesIt(s, x, k);
  }

  /** Nothing ever removes or adopts an abandoned object. */
  lemma {:induction false} AbandonedForever(s: Sys, steps: seq<Step>, k: Key)
    requires Inv(s) && Abandoned(s, k)
    ensures Abandoned(Run(s, steps), k)
    decreases |steps|
  {
    if steps != [] {
      var n := |steps| - 1;
      AbandonedForever(s, steps[..n], k);
      RunInv(s, steps[..n]);
      if Actor(steps[n]).Some? { WorkersLeaveIt(Run(s, steps[..n]), steps[n], k); }
      else { OthersLeaveIt(Run(s, steps[..n]), steps[n], k); }
    }
  }

  // ---- A history that leaves one ------------------------------------------------------------

  const First := Key(0, 1, 0)

  /** Worker 0 plans its key and is slow; worker 1 takes over and cleans up; then worker 0 uploads and crashes. */
  const History: seq<Step> := [
    CreateStep(0, 5), ClaimStep(0, 0), PlanKeyStep(0), RenewLeaseStep(0),
    TickStep(1000), RecoverStep, ClaimStep(1, 0), DeleteOldStep(1, true), ClearPointerStep(1),
    UploadStep(0, 7, true, false), StopStep(0)]

  lemma WorkerZeroPlans()
    ensures var s := Run(Empty, History[..4]);
            && s.clock == 0 && s.store == map[] && s.sweeps == map[] && s.workers == map[0 := Work(0, 1, Upload)]
            && s.jobs == map[0 := Job(Running, 1, 5, Some(First), None, Some(0), Some(LEASE_SECONDS), 0, None)]
  {
    assert History[..0] == [];
    RunStep(Empty, History, 0);
    RunStep(Empty, History, 1);
    assert Run(Empty, History[..2]).workers == map[0 := Work(0, 1, Plan)];
    RunStep(Empty, History, 2);
    assert Run(Empty, History[..3]).workers == map[0 := Work(0, 1, Renew)];
    RunStep(Empty, History, 3);
  }

  lemma WorkerOneTakesOver()
    ensures var s := Run(Empty, History[..7]);
            && s.store == map[] && s.sweeps == map[]
            && s.workers == map[0 := Work(0, 1, Upload), 1 := Work(0, 2, Clean(First))]
            && s.jobs.Keys == {0} && s.jobs[0].objectKey == Some(First) && s.jobs[0].owner == Some(1)
  {
    WorkerZeroPlans();
    RunStep(Empty, History, 4);
    RunStep(Empty, History, 5);
    assert Run(Empty, History[..6]).jobs[0].status.RetryScheduled?;
    RunStep(Empty, History, 6);
  }

  lemma WorkerOneCleans()
    ensures var s := Run(Empty, History[..9]);
            && s.store == map[] && s.sweeps == map[]
            && s.workers == map[0 := Work(0, 1, Upload), 1 := Work(0, 2, Plan)]
            && s.jobs.Keys == {0} && s.jobs[0].objectKey.None?
  {
    WorkerOneTakesOver();
    RunStep(Empty, History, 7);
    RunStep(Empty, History, 8);
    var s := Run(Empty, History[..7]);
    assert History[7] == DeleteOldStep(1, true) && History[8] == ClearPointerStep(1);
    hide Run, History, First;
    var s1 := DeleteOld(s, 1, true);
    assert s1.workers == map[0 := Work(0, 1, Upload), 1 := Work(0, 2, Clear(First))];
  }

  lemma WorkerZeroUploadsAndStops()
    ensures var s := Run(Empty, History);
            && s.store == map[First := 7] && s.sweeps == map[] && s.workers == map[1 := Work(0, 2, Plan)]
            && s.jobs.Keys == {0} && s.jobs[0].objectKey.None?
  {
    WorkerOneCleans();
    RunStep(Empty, History, 9);
    assert Run(Empty, History[..10]).workers == map[0 := Work(0, 1, Publish(7)), 1 := Work(0, 2, Plan)];
    RunStep(Empty, History, 10);
    assert History[..11] == History;
  }

  /** Without the proviso an orphan is reachable, and it is never removed. */
  lemma OrphansHappen(more: seq<Step>)
    ensures Abandoned(Run(Empty, History), First)
    ensures Abandoned(Run(Run(Empty, History), more), First)
  {
    ReachableInv(History);
    hide Inv, History;
    WorkerZeroUploadsAndStops();
    AbandonedForever(Run(Empty, History), more, First);
  }
}
