/** What a tenant and an operator can rely on: downloads, fencing, and no orphaned artifacts. */
module ExportTheorems {
  import opened Prelude
  import opened Exports
  import opened ExportRuns

  /** The worker whose session a step moves. */
  function Actor(step: Step): Option<nat> {
    match step
    case HeartbeatStep(a) => Some(a)
    case DeleteOldStep(a, _) => Some(a)
    case ClearPointerStep(a) => Some(a)
    case PlanKeyStep(a) => Some(a)
    case RenewLeaseStep(a) => Some(a)
    case UploadStep(a, _, _, _) => Some(a)
    case PublishStep(a, _) => Some(a)
    case DropStep(a) => Some(a)
    case RaiseStep(a, _) => Some(a)
    case UndoStep(a, _) => Some(a)
    case ReleaseStep(a) => Some(a)
    case StopStep(a) => Some(a)
    case _ => None
  }

  // ---- Downloads ----------------------------------------------------------------------------

  /** Whatever stale, failing, retrying or sweeping workers do, an unexpired completed export has its artifact. */
  lemma CompletedIsDownloadable(steps: seq<Step>, j: nat)
    requires var s := Run(Empty, steps); j in s.jobs && s.jobs[j].status.Completed? && !Lapsed(s.jobs[j].expiresAt, s.clock)
    ensures var s := Run(Empty, steps); var job := s.jobs[j];
            && job.objectKey.Some? && job.objectKey.value in s.store
            && job.checksum == Some(s.store[job.objectKey.value])
  {
    ReachableInv(steps);
    assert Unexpired(Run(Empty, steps).jobs[j], Run(Empty, steps).clock);
  }

  /** Attempts only rise, over job's life; a failed or expired job stays so; a completed one keeps its artifact fields. */
  predicate JobKept(job: Job, job': Job) {
    && job.attempts <= job'.attempts && job'.maxAttempts == job.maxAttempts
    && (job.status.Failed? ==> job'.status.Failed?)
    && (job.status.Expired? ==> job'.status.Expired?)
    && (job.status.Completed? ==> job'.status.Expired? || (job'.status.Completed? && SameArtifact(job, job')))
  }

  predicate JobsKept(s: Sys, s': Sys) {
    forall j :: j in s.jobs ==> j in s'.jobs && JobKept(s.jobs[j], s'.jobs[j])
  }

  ghost predicate JobsOk(jobs: map<nat, Job>) { forall j :: j in jobs ==> JobOk(j, jobs[j]) }

  lemma HolderExtends(s: Sys, a: nat)
    requires JobsOk(s.jobs) && Holds(s, a)
    ensures JobsKept(s, Heartbeat(s, a)) && JobsKept(s, RenewLease(s, a))
  {}

  lemma HolderPoints(s: Sys, a: nat)
    requires JobsOk(s.jobs) && Holds(s, a)
    ensures JobsKept(s, ClearPointer(s, a)) && JobsKept(s, PlanKey(s, a))
  {
    OneJobKept(s, ClearPointer(s, a), s.workers[a].job);
    OneJobKept(s, PlanKey(s, a), s.workers[a].job);
  }

  lemma HolderFinishes(s: Sys, a: nat, ttl: nat)
    requires JobsOk(s.jobs) && Holds(s, a)
    ensures JobsKept(s, PublishKey(s, a, ttl)) && JobsKept(s, ReleaseJob(s, a))
  {}

  lemma SameJobsKept(s: Sys, s': Sys)
    requires JobsOk(s.jobs) && s'.jobs == s.jobs
    ensures JobsKept(s, s')
  {}

  lemma HeldJobKept(s: Sys, a: nat, step: Step)
    requires JobsOk(s.jobs) && Actor(step) == Some(a) && Holds(s, a)
    ensures JobsKept(s, Next(s, step))
  {
    hide JobsKept, JobsOk, Heartbeat, RenewLease, ClearPointer, PlanKey, PublishKey, ReleaseJob;
    match step
    case HeartbeatStep(_) => HolderExtends(s, a);
    case ClearPointerStep(_) => HolderPoints(s, a);
    case PlanKeyStep(_) => HolderPoints(s, a);
    case RenewLeaseStep(_) => HolderExtends(s, a);
    case PublishStep(_, ttl) => HolderFinishes(s, a, ttl);
    case ReleaseStep(_) => HolderFinishes(s, a, 0);
    case _ => SameJobsKept(s, Next(s, step));
  }

  lemma OneJobKept(s: Sys, s': Sys, j: nat)
    requires j in s'.jobs && (s'.jobs == s.jobs || s'.jobs == s.jobs[j := s'.jobs[j]])
    requires j in s.jobs ==> JobKept(s.jobs[j], s'.jobs[j])
    ensures JobsKept(s, s')
  {}

  lemma ExpireClearKeepsJobs(s: Sys, x: nat)
    requires JobsOk(s.jobs)
    ensures JobsKept(s, ExpireClear(s, x))
  {}

  lemma ExpirePostponeKeepsJobs(s: Sys, x: nat)
    requires JobsOk(s.jobs)
    ensures JobsKept(s, ExpirePostpone(s, x))
  {}

  lemma ClaimKeepsJobs(s: Sys, a: nat, j: nat)
    requires JobsOk(s.jobs)
    ensures JobsKept(s, Claim(s, a, j)) && JobsKept(s, Recover(s))
  {}

  lemma NextKeepsJobs(s: Sys, step: Step)
    requires JobsOk(s.jobs)
    ensures JobsKept(s, Next(s, step))
  {
    if Actor(step).Some? {
      var a := Actor(step).value;
      if Holds(s, a) { HeldJobKept(s, a, step); } else { LostWorkerWritesNothing(s, a, step); }
    } else {
      OtherStepsKeepJobs(s, step);
    }
  }

  lemma OtherStepsKeepJobs(s: Sys, step: Step)
    requires JobsOk(s.jobs) && Actor(step).None?
    ensures JobsKept(s, Next(s, step))
  {
    match step
    case ClaimStep(a, j) => ClaimKeepsJobs(s, a, j);
    case RecoverStep => ClaimKeepsJobs(s, 0, 0);
    case ExpireClearStep(x) => ExpireClearKeepsJobs(s, x);
    case ExpirePostponeStep(x) => ExpirePostponeKeepsJobs(s, x);
    case _ =>
  }

  lemma LostWorkerWritesNothing(s: Sys, a: nat, step: Step)
    requires !Holds(s, a) && Actor(step) == Some(a)
    ensures Next(s, step).jobs == s.jobs && Next(s, step).sweeps == s.sweeps
  {}

  lemma {:induction false} CompletedForever(steps: seq<Step>, more: seq<Step>)
    ensures JobsKept(Run(Empty, steps), Run(Run(Empty, steps), more))
    decreases |more|
  {
    if more != [] {
      var s := Run(Empty, steps);
      var n := |more| - 1;
      CompletedForever(steps, more[..n]);
      ReachableInv(steps);
      RunInv(s, more[..n]);
      NextKeepsJobs(Run(s, more[..n]), more[n]);
    }
  }

  /** Claims are bounded, and each one gets a key that nothing stored, recorded or carried has used before. */
  lemma EveryClaimHasItsOwnKey(steps: seq<Step>, a: nat, j: nat)
    requires var s := Run(Empty, steps); Claim(s, a, j) != s
    ensures var s := Run(Empty, steps); var s' := Claim(s, a, j); var own := Own(a, s'.workers[a]);
            && s'.jobs[j].attempts == s.jobs[j].attempts + 1 <= s.jobs[j].maxAttempts
            && own !in s.store
            && (forall i :: i in s.jobs ==> s.jobs[i].objectKey != Some(own))
            && (forall b :: b in s.workers ==> Own(b, s.workers[b]) != own && CarriesOk(Own(b, s.workers[b]), s.workers[b].phase))
  {
    ReachableInv(steps);
    var s := Run(Empty, steps);
    var own := Own(a, Claim(s, a, j).workers[a]);
    assert own in s.store ==> KeyOk(s.jobs, own);
    forall i | i in s.jobs ensures s.jobs[i].objectKey != Some(own) {
      assert JobOk(i, s.jobs[i]);
    }
    forall b | b in s.workers ensures Own(b, s.workers[b]) != own && CarriesOk(Own(b, s.workers[b]), s.workers[b].phase) {
      assert WorkOk(s.jobs, s.store, b, s.workers[b]);
    }
  }

  // ---- Expiry -------------------------------------------------------------------------------

  /** An export published at `now` lapses, and becomes due for the sweep, exactly `ttl` seconds later. */
  lemma ExpiresExactly(job: Job, key: Key, digest: nat, now: int, ttl: nat, later: int)
    ensures var done := Completion(job, key, digest, now, ttl);
            && (Lapsed(done.expiresAt, later) <==> later >= now + ttl)
            && (Due(done, later) <==> later >= now + ttl)
  {}

  /** A completed row keeps its artifact, or expires after its time. */
  predicate KeptOrLapsed(job: Job, job': Job, clock: int) {
    || (job'.status.Completed? && SameArtifact(job, job'))
    || (job'.status.Expired? && Lapsed(job.expiresAt, clock))
  }

  lemma ClearExpiresLapsed(s: Sys, x: nat, j: nat)
    requires j in s.jobs && s.jobs[j].status.Completed?
    ensures KeptOrLapsed(s.jobs[j], ExpireClear(s, x).jobs[j], s.clock)
    ensures KeptOrLapsed(s.jobs[j], ExpirePostpone(s, x).jobs[j], s.clock)
  {}

  lemma HolderLeavesCompleted(s: Sys, step: Step, a: nat, j: nat)
    requires Actor(step) == Some(a) && Holds(s, a) && JobsOk(s.jobs) && j in s.jobs && s.jobs[j].status.Completed?
    ensures j in Next(s, step).jobs && Next(s, step).jobs[j] == s.jobs[j]
  {
    assert JobOk(j, s.jobs[j]) && s.workers[a].job != j;
    hide JobOk, JobsOk, Completion, Released;
    match step
    case _ =>
  }

  lemma OthersLeaveCompleted(s: Sys, step: Step, j: nat)
    requires Actor(step).None? && !step.ExpireClearStep? && !step.ExpirePostponeStep?
    requires j in s.jobs && JobOk(j, s.jobs[j]) && s.jobs[j].status.Completed?
    ensures j in Next(s, step).jobs && Next(s, step).jobs[j] == s.jobs[j]
  {
    match step
    case _ =>
  }

  lemma CompletedStepsToLapsed(s: Sys, step: Step, j: nat)
    requires JobsOk(s.jobs) && j in s.jobs && s.jobs[j].status.Completed?
    ensures j in Next(s, step).jobs && KeptOrLapsed(s.jobs[j], Next(s, step).jobs[j], s.clock)
  {
    hide JobOk, Next;
    if Actor(step).Some? {
      var a := Actor(step).value;
      if Holds(s, a) { HolderLeavesCompleted(s, step, a, j); } else { LostWorkerWritesNothing(s, a, step); }
    } else if step.ExpireClearStep? || step.ExpirePostponeStep? {
      ClearExpiresLapsed(s, step.x, j);
      SweepStepsAre(s, step);
    } else {
      OthersLeaveCompleted(s, step, j);
    }
  }

  lemma SweepStepsAre(s: Sys, step: Step)
    ensures step.ExpireClearStep? ==> Next(s, step) == ExpireClear(s, step.x)
    ensures step.ExpirePostponeStep? ==> Next(s, step) == ExpirePostpone(s, step.x)
  {}

  /** Job j holds this artifact until then, or that time has come. */
  predicate HeldUntil(s: Sys, j: nat, key: Key, digest: nat, until: int) {
    && j in s.jobs
    && (|| (s.jobs[j].status.Completed? && s.jobs[j].objectKey == Some(key) && s.jobs[j].checksum == Some(digest)
            && s.jobs[j].expiresAt == Some(until))
        || (s.jobs[j].status.Expired? && until <= s.clock))
  }

  lemma ClockAdvances(s: Sys, step: Step)
    ensures s.clock <= Next(s, step).clock
  {}

  lemma StepHolds(s: Sys, step: Step, j: nat, key: Key, digest: nat, until: int)
    requires JobsOk(s.jobs) && HeldUntil(s, j, key, digest, until)
    ensures HeldUntil(Next(s, step), j, key, digest, until)
  {
    hide Next, JobsOk;
    ClockAdvances(s, step);
    if s.jobs[j].status.Completed? { CompletedStepsToLapsed(s, step, j); } else { NextKeepsJobs(s, step); }
  }

  lemma {:induction false} RunHolds(s: Sys, more: seq<Step>, j: nat, key: Key, digest: nat, until: int)
    requires Inv(s) && HeldUntil(s, j, key, digest, until)
    ensures HeldUntil(Run(s, more), j, key, digest, until)
    decreases |more|
  {
    hide Next, HeldUntil;
    if more != [] {
      var n := |more| - 1;
      RunHolds(s, more[..n], j, key, digest, until);
      RunInv(s, more[..n]);
      StepHolds(Run(s, more[..n]), more[n], j, key, digest, until);
    }
  }

  /** Worker a publishes its artifact in state s. */
  predicate Publishes(s: Sys, a: nat) { Holds(s, a) && s.workers[a].phase.Publish? }

  lemma PublishedIsHeld(s: Sys, a: nat, ttl: nat)
    requires Publishes(s, a)
    ensures var w := s.workers[a];
            HeldUntil(PublishKey(s, a, ttl), w.job, Own(a, w), w.phase.digest, s.clock + ttl)
  {}

  /**
   * Whatever anybody does afterwards, an export published with time to live `ttl` is still completed, and its
   * object stored under its own key with the recorded checksum, in every state whose clock is before the expiry.
   */
  lemma StaysDownloadable(steps: seq<Step>, a: nat, ttl: nat, more: seq<Step>)
    requires Publishes(Run(Empty, steps), a)
    requires Run(PublishKey(Run(Empty, steps), a, ttl), more).clock < Run(Empty, steps).clock + ttl
    ensures var w := Run(Empty, steps).workers[a];
            var s' := Run(PublishKey(Run(Empty, steps), a, ttl), more);
            && w.job in s'.jobs && s'.jobs[w.job].status.Completed? && s'.jobs[w.job].objectKey == Some(Own(a, w))
            && s'.jobs[w.job].checksum == Some(w.phase.digest)
            && Own(a, w) in s'.store && s'.store[Own(a, w)] == w.phase.digest
  {
    hide PublishKey;
    var s := Run(Empty, steps);
    var w := s.workers[a];
    ReachableInv(steps);
    PublishKeyInv(s, a, ttl);
    PublishedIsHeld(s, a, ttl);
    RunHolds(PublishKey(s, a, ttl), more, w.job, Own(a, w), w.phase.digest, s.clock + ttl);
    RunInv(PublishKey(s, a, ttl), more);
    assert Unexpired(Run(PublishKey(s, a, ttl), more).jobs[w.job], Run(PublishKey(s, a, ttl), more).clock);
  }

  // ---- Fencing ------------------------------------------------------------------------------

  /** A worker without the lease writes no job row; all it can delete is its own object or one of an earlier attempt. */
  lemma LostWorkerOnlyDeletesStaleObjects(steps: seq<Step>, a: nat, step: Step, k: Key)
    requires a in Run(Empty, steps).workers && !Holds(Run(Empty, steps), a) && Actor(step) == Some(a)
    ensures var s := Run(Empty, steps); var s' := Next(s, step);
            && s'.jobs == s.jobs && s'.sweeps == s.sweeps
            && (k in s.store && k !in s'.store ==>
                  k == Own(a, s.workers[a]) || (k.job == s.workers[a].job && k.attempts < s.workers[a].attempts))
  {
    ReachableInv(steps);
    var s := Run(Empty, steps);
    assert WorkOk(s.jobs, s.store, a, s.workers[a]);
    LostWorkerWritesNothing(s, a, step);
    if k in s.store && k !in Next(s, step).store { WorkerDeletesOnlyWhatItCarries(s, a, step, k); }
  }

  lemma WorkerDeletesOnlyWhatItCarries(s: Sys, a: nat, step: Step, k: Key)
    requires Actor(step) == Some(a) && a in s.workers && CarriesOk(Own(a, s.workers[a]), s.workers[a].phase)
    requires k in s.store && k !in Next(s, step).store
    ensures k == Own(a, s.workers[a]) || (k.job == s.workers[a].job && k.attempts < s.workers[a].attempts)
  {}
}
