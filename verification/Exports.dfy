/**
 * Export jobs and their stored artifacts as a two-resource protocol (exports.py).
 *
 * The job table and the object store are shared; workers and expiry sweeps act on them, one statement or one
 * store request per step. A worker may crash, raise or lose its lease between any two of its steps.
 */
module Exports {
  import opened Prelude

  const LEASE_SECONDS := 300
  const EXPIRY_RETRY_SECONDS := 300

  datatype Status = Queued | Running | RetryScheduled | Completed | Failed | Expired

  /** The artifact key of one attempt: its version is made of the attempt number and the worker's id. */
  datatype Key = Key(job: nat, attempts: nat, owner: nat)

  datatype Job = Job(
    status: Status, attempts: nat, maxAttempts: nat, objectKey: Option<Key>, checksum: Option<nat>,
    owner: Option<nat>, leaseExpiresAt: Option<int>, nextAttemptAt: int, expiresAt: Option<int>)

  /** Where a worker stands; a key it carries is its `durable_object_key`. */
  datatype Phase =
    | Clean(stale: Key)
    | Clear(stale: Key)
    | Plan
    | Renew
    | Upload
    | Publish(digest: nat)
    | Drop
    | Undo(durable: Option<Key>)
    | Release(durable: Option<Key>, cleaned: bool)

  datatype Work = Work(job: nat, attempts: nat, phase: Phase)

  /** One row of an expiry sweep. */
  datatype Sweep = Sweep(job: nat, key: Key, completed: bool, deleted: bool)

  datatype Sys = Sys(
    clock: int, jobs: map<nat, Job>, store: map<Key, nat>, workers: map<nat, Work>, sweeps: map<nat, Sweep>)

  const Empty := Sys(0, map[], map[], map[], map[])

  function Own(a: nat, w: Work): Key { Key(w.job, w.attempts, a) }

  // ---- Row updates --------------------------------------------------------------------------

  function NewJob(maxAttempts: nat, now: int): Job {
    Job(Queued, 0, maxAttempts, None, None, None, None, now, None)
  }

  function Recovered(j: Job, now: int): Job {
    if j.status.Running? && (j.leaseExpiresAt.None? || Lapsed(j.leaseExpiresAt, now)) then
      j.(status := if j.attempts >= j.maxAttempts then Failed else RetryScheduled,
         nextAttemptAt := now, owner := None, leaseExpiresAt := None)
    else j
  }

  predicate Claimable(j: Job, now: int) {
    (j.status.Queued? || j.status.RetryScheduled?) && j.attempts < j.maxAttempts && j.nextAttemptAt <= now
    && (j.leaseExpiresAt.None? || Lapsed(j.leaseExpiresAt, now))
  }

  function Claimed(j: Job, a: nat, now: int): Job {
    j.(status := Running, owner := Some(a), leaseExpiresAt := Some(now + LEASE_SECONDS), attempts := j.attempts + 1)
  }

  function Completion(j: Job, key: Key, digest: nat, now: int, ttl: nat): Job {
    j.(status := Completed, objectKey := Some(key), checksum := Some(digest), expiresAt := Some(now + ttl),
       owner := None, leaseExpiresAt := None, nextAttemptAt := now)
  }

  function RetryDelay(attempts: nat): int { Min(3600, Pow2(Min(attempts, 11))) }

  function Released(j: Job, durable: Option<Key>, cleaned: bool, now: int): Job {
    j.(status := if j.attempts >= j.maxAttempts then Failed else RetryScheduled,
       nextAttemptAt := now + RetryDelay(j.attempts),
       objectKey := if cleaned && j.objectKey == durable then None else j.objectKey,
       owner := None, leaseExpiresAt := None)
  }

  // ---- Job steps ----------------------------------------------------------------------------

  function Tick(s: Sys, now: int): Sys { s.(clock := Max(s.clock, now)) }

  function Create(s: Sys, j: nat, maxAttempts: nat): Sys {
    if j in s.jobs then s else s.(jobs := s.jobs[j := NewJob(maxAttempts, s.clock)])
  }

  function Recover(s: Sys): Sys {
    s.(jobs := map j | j in s.jobs :: Recovered(s.jobs[j], s.clock))
  }

  /** One owner works serially, so it claims only while it has no job. */
  function Claim(s: Sys, a: nat, j: nat): Sys {
    if a in s.workers || j !in s.jobs || !Claimable(s.jobs[j], s.clock) then s
    else
      var job := Claimed(s.jobs[j], a, s.clock);
      Goto(s.(jobs := s.jobs[j := job]), a,
           Work(j, job.attempts, if job.objectKey.Some? then Clean(job.objectKey.value) else Plan))
  }

  predicate Holds(s: Sys, a: nat) {
    a in s.workers && s.workers[a].job in s.jobs && s.jobs[s.workers[a].job].owner == Some(a)
  }

  predicate Renewable(s: Sys, a: nat) { Holds(s, a) && s.jobs[s.workers[a].job].status.Running? }

  function SetJob(s: Sys, j: nat, job: Job): Sys { s.(jobs := s.jobs[j := job]) }

  function Extend(s: Sys, a: nat): Sys
    requires Holds(s, a)
  {
    var j := s.workers[a].job;
    SetJob(s, j, s.jobs[j].(leaseExpiresAt := Some(s.clock + LEASE_SECONDS)))
  }

  function Heartbeat(s: Sys, a: nat): Sys { if Renewable(s, a) then Extend(s, a) else s }

  // ---- Worker steps -------------------------------------------------------------------------

  function Goto(s: Sys, a: nat, w: Work): Sys { s.(workers := s.workers[a := w]) }

  function To(s: Sys, a: nat, phase: Phase): Sys
    requires a in s.workers
  {
    Goto(s, a, s.workers[a].(phase := phase))
  }

  /** Returning, or crashing: the session is gone and nothing else happens. */
  function End(s: Sys, a: nat): Sys { s.(workers := s.workers - {a}) }

  function Delete(s: Sys, key: Key): Sys { s.(store := s.store - {key}) }

  predicate In(s: Sys, a: nat) { a in s.workers }

  function DeleteOld(s: Sys, a: nat, ok: bool): Sys {
    if !In(s, a) || !s.workers[a].phase.Clean? then s
    else
      var stale := s.workers[a].phase.stale;
      if ok then To(Delete(s, stale), a, Clear(stale)) else To(s, a, Undo(Some(stale)))
  }

  function ClearPointer(s: Sys, a: nat): Sys {
    if !In(s, a) || !s.workers[a].phase.Clear? then s
    else
      var j := s.workers[a].job;
      if !Holds(s, a) || s.jobs[j].objectKey != Some(s.workers[a].phase.stale) then End(s, a)
      else To(SetJob(s, j, s.jobs[j].(objectKey := None)), a, Plan)
  }

  function PlanKey(s: Sys, a: nat): Sys {
    if !In(s, a) || !s.workers[a].phase.Plan? then s
    else if !Holds(s, a) then End(s, a)
    else
      var j := s.workers[a].job;
      To(SetJob(s, j, s.jobs[j].(objectKey := Some(Own(a, s.workers[a])))), a, Renew)
  }

  function RenewLease(s: Sys, a: nat): Sys {
    if !In(s, a) || !s.workers[a].phase.Renew? then s
    else if !Renewable(s, a) then End(s, a)
    else To(Extend(s, a), a, Upload)
  }

  /** The request may raise and still have stored the object. */
  function UploadKey(s: Sys, a: nat, digest: nat, stored: bool, raised: bool): Sys {
    if !In(s, a) || !s.workers[a].phase.Upload? then s
    else
      var own := Own(a, s.workers[a]);
      To(if stored || !raised then s.(store := s.store[own := digest]) else s, a,
         if raised then Undo(Some(own)) else Publish(digest))
  }

  /** Guarded by the lease owner alone; without it the worker drops its own object. */
  function PublishKey(s: Sys, a: nat, ttl: nat): Sys {
    if !In(s, a) || !s.workers[a].phase.Publish? then s
    else if !Holds(s, a) then To(s, a, Drop)
    else
      var w := s.workers[a];
      End(SetJob(s, w.job, Completion(s.jobs[w.job], Own(a, w), w.phase.digest, s.clock, ttl)), a)
  }

  function DropKey(s: Sys, a: nat): Sys {
    if !In(s, a) || !s.workers[a].phase.Drop? then s else End(Delete(s, Own(a, s.workers[a])), a)
  }

  /** An exception anywhere in the attempt, with the key the worker then remembers. */
  function Raise(s: Sys, a: nat, keyChosen: bool): Sys {
    if !In(s, a) then s
    else
      var own := Some(Own(a, s.workers[a]));
      match s.workers[a].phase
      case Clear(stale) => To(s, a, Undo(Some(stale)))
      case Plan => To(s, a, Undo(if keyChosen then own else None))
      case Renew => To(s, a, Undo(own))
      case Publish(_) => To(s, a, Undo(own))
      case Drop => To(s, a, Undo(own))
      case _ => s
  }

  function UndoKey(s: Sys, a: nat, ok: bool): Sys {
    if !In(s, a) || !s.workers[a].phase.Undo? then s
    else
      var durable := s.workers[a].phase.durable;
      if durable.Some? && ok then To(Delete(s, durable.value), a, Release(durable, true))
      else To(s, a, Release(durable, false))
  }

  function ReleaseJob(s: Sys, a: nat): Sys {
    if !In(s, a) || !s.workers[a].phase.Release? then s
    else if !Holds(s, a) then End(s, a)
    else
      var w := s.workers[a];
      End(SetJob(s, w.job, Released(s.jobs[w.job], w.phase.durable, w.phase.cleaned, s.clock)), a)
  }

  // ---- Expiry -------------------------------------------------------------------------------

  predicate Due(j: Job, now: int) {
    j.objectKey.Some? && j.nextAttemptAt <= now && ((j.status.Completed? && Lapsed(j.expiresAt, now)) || j.status.Failed?)
  }

  function ExpireRead(s: Sys, x: nat, j: nat): Sys {
    if x in s.sweeps || j !in s.jobs || !Due(s.jobs[j], s.clock) then s
    else s.(sweeps := s.sweeps[x := Sweep(j, s.jobs[j].objectKey.value, s.jobs[j].status.Completed?, false)])
  }

  function ExpireStop(s: Sys, x: nat): Sys { s.(sweeps := s.sweeps - {x}) }

  /** After an error the row is looked at again later. */
  function ExpirePostpone(s: Sys, x: nat): Sys {
    if x !in s.sweeps then s
    else
      var sw := s.sweeps[x];
      if sw.job !in s.jobs || s.jobs[sw.job].objectKey != Some(sw.key) then ExpireStop(s, x)
      else ExpireStop(SetJob(s, sw.job, s.jobs[sw.job].(nextAttemptAt := s.clock + EXPIRY_RETRY_SECONDS)), x)
  }

  function ExpireDelete(s: Sys, x: nat): Sys {
    if x !in s.sweeps || s.sweeps[x].deleted then s
    else Delete(s, s.sweeps[x].key).(sweeps := s.sweeps[x := s.sweeps[x].(deleted := true)])
  }

  predicate ClearsRow(s: Sys, sw: Sweep) {
    && sw.job in s.jobs
    && var j := s.jobs[sw.job];
       if sw.completed then j.status.Completed? && Lapsed(j.expiresAt, s.clock)
       else j.status.Failed? && j.objectKey == Some(sw.key)
  }

  function ExpireClear(s: Sys, x: nat): Sys {
    if x !in s.sweeps || !s.sweeps[x].deleted then s
    else
      var sw := s.sweeps[x];
      if !ClearsRow(s, sw) then ExpireStop(s, x)
      else
        var j := s.jobs[sw.job];
        ExpireStop(SetJob(s, sw.job, j.(status := if sw.completed then Expired else j.status, objectKey := None)), x)
  }

  // ---- Runs ---------------------------------------------------------------------------------

  datatype Step =
    | TickStep(now: int)
    | CreateStep(j: nat, maxAttempts: nat)
    | RecoverStep
    | ClaimStep(a: nat, j: nat)
    | HeartbeatStep(a: nat)
    | DeleteOldStep(a: nat, ok: bool)
    | ClearPointerStep(a: nat)
    | PlanKeyStep(a: nat)
    | RenewLeaseStep(a: nat)
    | UploadStep(a: nat, digest: nat, stored: bool, raised: bool)
    | PublishStep(a: nat, ttl: nat)
    | DropStep(a: nat)
    | RaiseStep(a: nat, keyChosen: bool)
    | UndoStep(a: nat, ok: bool)
    | ReleaseStep(a: nat)
    | StopStep(a: nat)
    | ExpireReadStep(x: nat, j: nat)
    | ExpireDeleteStep(x: nat)
    | ExpireClearStep(x: nat)
    | ExpirePostponeStep(x: nat)
    | ExpireStopStep(x: nat)

  function Next(s: Sys, step: Step): Sys {
    match step
    case TickStep(now) => Tick(s, now)
    case CreateStep(j, maxAttempts) => Create(s, j, maxAttempts)
    case RecoverStep => Recover(s)
    case ClaimStep(a, j) => Claim(s, a, j)
    case HeartbeatStep(a) => Heartbeat(s, a)
    case DeleteOldStep(a, ok) => DeleteOld(s, a, ok)
    case ClearPointerStep(a) => ClearPointer(s, a)
    case PlanKeyStep(a) => PlanKey(s, a)
    case RenewLeaseStep(a) => RenewLease(s, a)
    case UploadStep(a, digest, stored, raised) => UploadKey(s, a, digest, stored, raised)
    case PublishStep(a, ttl) => PublishKey(s, a, ttl)
    case DropStep(a) => DropKey(s, a)
    case RaiseStep(a, keyChosen) => Raise(s, a, keyChosen)
    case UndoStep(a, ok) => UndoKey(s, a, ok)
    case ReleaseStep(a) => ReleaseJob(s, a)
    case StopStep(a) => End(s, a)
    case ExpireReadStep(x, j) => ExpireRead(s, x, j)
    case ExpireDeleteStep(x) => ExpireDelete(s, x)
    case ExpireClearStep(x) => ExpireClear(s, x)
    case ExpirePostponeStep(x) => ExpirePostpone(s, x)
    case ExpireStopStep(x) => ExpireStop(s, x)
  }

  function Run(s: Sys, steps: seq<Step>): Sys
    decreases |steps|
  {
    if steps == [] then s else Next(Run(s, steps[..|steps| - 1]), steps[|steps| - 1])
  }

  lemma RunNothing(s: Sys)
    ensures Run(s, []) == s
  {}

  lemma RunSnoc(s: Sys, steps: seq<Step>, step: Step)
    ensures Run(s, steps + [step]) == Next(Run(s, steps), step)
  {
    assert (steps + [step])[..|steps|] == steps;
  }

  lemma RunStep(s: Sys, steps: seq<Step>, n: nat)
    requires n < |steps|
    ensures Run(s, steps[..n + 1]) == Next(Run(s, steps[..n]), steps[n])
  {
    assert steps[..n + 1][..n] == steps[..n];
  }

  lemma {:induction false} RunConcat(s: Sys, first: seq<Step>, second: seq<Step>)
    ensures Run(s, first + second) == Run(Run(s, first), second)
    decreases |second|
  {
    if second == [] {
      assert first + second == first;
    } else {
      var n := |second| - 1;
      RunConcat(s, first, second[..n]);
      RunSnoc(s, first + second[..n], second[n]);
      assert first + second == first + second[..n] + [second[n]];
    }
  }
}
