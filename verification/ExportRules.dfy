/** What the export table's row rules mean for the statements after them: when rows can be claimed, released and swept. */
module ExportRules {
  import opened Prelude
  import opened Exports
  import opened ExportRuns

  /** One second, doubled per attempt up to the eleventh; the cap of an hour is never reached. */
  lemma RetryDelayDoubles(attempts: nat)
    ensures RetryDelay(0) == 1
    ensures RetryDelay(attempts + 1) == if attempts < 11 then 2 * RetryDelay(attempts) else RetryDelay(attempts)
    ensures RetryDelay(attempts) <= 2048
  {
    Pow2Bounded(Min(attempts, 11));
    Pow2Bounded(Min(attempts + 1, 11));
    assert Pow2(0) == 1;
  }

  lemma Pow2Bounded(n: nat)
    requires n <= 11
    ensures Pow2(n) <= 2048
  {
    Pow2Grows(n, 11);
    assert Pow2(11) == 2048 by { assert Pow2(4) == 16; assert Pow2(8) == 256; }
  }

  /** A new job can be claimed at once, if it may be attempted at all. */
  lemma NewJobIsDue(maxAttempts: nat, now: int, later: int)
    ensures Claimable(NewJob(maxAttempts, now), later) <==> maxAttempts > 0 && later >= now
    ensures NewJob(maxAttempts, now).objectKey.None? && NewJob(maxAttempts, now).attempts == 0
  {}

  /** A claimed row is the owner's for 300 seconds, and a renewed one for 300 more: recovery releases it exactly then. */
  lemma ClaimHolds(j: nat, job: Job, a: nat, now: int, later: int)
    requires JobOk(j, job) && Claimable(job, now)
    ensures var c := Claimed(job, a, now);
            && c.owner == Some(a) && c.attempts == job.attempts + 1 && c.objectKey == job.objectKey && !Claimable(c, later)
            && (Recovered(c, later) == c <==> later < now + 300)
  {}

  lemma RenewalHolds(s: Sys, a: nat, later: int)
    requires Renewable(s, a)
    ensures var job := Heartbeat(s, a).jobs[s.workers[a].job]; Recovered(job, later) == job <==> later < s.clock + 300
  {}

  /** A recovered row fails if it was the last attempt, and can otherwise be claimed from that moment on. */
  lemma RecoveryReleases(j: nat, job: Job, now: int, later: int)
    requires JobOk(j, job) && job.status.Running? && job.leaseExpiresAt.value <= now
    ensures var c := Recovered(job, now);
            && c.owner.None? && c.attempts == job.attempts && c.objectKey == job.objectKey
            && (c.status.Failed? <==> job.attempts == job.maxAttempts)
            && (Claimable(c, later) <==> job.attempts < job.maxAttempts && later >= now)
  {}

  /**
   * After an exception the row fails if it was the last attempt, and can otherwise be claimed exactly after the delay. It
   * forgets its artifact iff the cleanup deleted that one; a failed row that still names one is due for the sweep.
   */
  lemma ReleaseDelays(j: nat, job: Job, durable: Option<Key>, cleaned: bool, now: int, later: int)
    requires JobOk(j, job) && job.status.Running?
    ensures var c := Released(job, durable, cleaned, now); var from := now + RetryDelay(job.attempts);
            && c.owner.None? && c.attempts == job.attempts
            && (c.status.Failed? <==> job.attempts == job.maxAttempts)
            && (Claimable(c, later) <==> job.attempts < job.maxAttempts && later >= from)
            && c.objectKey == (if cleaned && job.objectKey == durable then None else job.objectKey)
            && (Due(c, later) <==> c.status.Failed? && c.objectKey.Some? && later >= from)
  {
    hide RetryDelay;
  }

  /** A row is due for the sweep iff it names an artifact, its time has come, and it failed or its export lapsed. */
  lemma PostponedIsDueLater(s: Sys, x: nat, later: int)
    requires x in s.sweeps && s.sweeps[x].job in s.jobs && s.jobs[s.sweeps[x].job].objectKey == Some(s.sweeps[x].key)
    requires Due(s.jobs[s.sweeps[x].job], s.clock)
    ensures var job := ExpirePostpone(s, x).jobs[s.sweeps[x].job]; Due(job, later) <==> later >= s.clock + 300
  {}

  /**
   * An undisturbed sweep of a due row deletes its object and clears the pointer, so no sweep looks at the row again; a
   * completed export is expired by it, a failed job stays failed.
   */
  lemma SweepClears(s: Sys, x: nat, j: nat, later: int)
    requires x !in s.sweeps && j in s.jobs && Due(s.jobs[j], s.clock)
    ensures var s' := ExpireClear(ExpireDelete(ExpireRead(s, x, j), x), x); var job, job' := s.jobs[j], s'.jobs[j];
            && job.objectKey.value !in s'.store && job'.objectKey.None? && !Due(job', later) && x !in s'.sweeps
            && (job.status.Completed? ==> job'.status.Expired?) && (job.status.Failed? ==> job'.status.Failed?)
  {}
}
