/** What every run of the export machine keeps. */
module ExportRuns {
  import opened Prelude
  import opened Exports

  // ---- The invariant ------------------------------------------------------------------------

  predicate JobOk(j: nat, job: Job) {
    && job.attempts <= job.maxAttempts
    && (job.owner.Some? <==> job.status.Running?)
    && (job.status.Running? ==> job.leaseExpiresAt.Some?)
    && (job.objectKey.Some? ==> job.objectKey.value.job == j && 1 <= job.objectKey.value.attempts <= job.attempts)
    && (job.status.Completed? ==>
          job.objectKey.Some? && job.objectKey.value.attempts == job.attempts && job.checksum.Some? && job.expiresAt.Some?)
  }

  /** Every stored object belongs to an attempt its job has already started. */
  predicate KeyOk(jobs: map<nat, Job>, k: Key) {
    k.job in jobs && 1 <= k.attempts <= jobs[k.job].attempts
  }

  /** A completed job that has not expired can be downloaded: its object is stored with the recorded checksum. */
  predicate Available(job: Job, store: map<Key, nat>) {
    job.objectKey.Some? && job.objectKey.value in store && job.checksum == Some(store[job.objectKey.value])
  }

  predicate Unexpired(job: Job, clock: int) { job.status.Completed? && !Lapsed(job.expiresAt, clock) }

  /** The keys a worker may still delete besides its own are of earlier attempts. */
  predicate CarriesOk(own: Key, phase: Phase) {
    match phase
    case Clean(k) => k.job == own.job && k.attempts < own.attempts
    case Clear(k) => k.job == own.job && k.attempts < own.attempts
    case Undo(k) => k.Some? ==> k.value == own || (k.value.job == own.job && k.value.attempts < own.attempts)
    case Release(k, cleaned) =>
      (k.Some? ==> k.value == own || (k.value.job == own.job && k.value.attempts < own.attempts))
      && (cleaned ==> k.Some?)
    case _ => true
  }

  /** Only from here on can the worker's own object exist. */
  predicate MayHaveStored(own: Key, phase: Phase) {
    phase.Publish? || phase.Drop? || phase == Undo(Some(own)) || phase == Release(Some(own), false)
  }

  /** What the lease holder knows about the row's pointer. */
  predicate HolderOk(own: Key, phase: Phase, pointer: Option<Key>, store: map<Key, nat>) {
    && (own in store ==> pointer == Some(own))
    && match phase
       case Clean(k) => pointer == Some(k)
       case Clear(k) => pointer == Some(k)
       case Plan => pointer == None
       case Renew => pointer == Some(own)
       case Upload => pointer == Some(own)
       case Publish(digest) => own in store && store[own] == digest
       case Drop => false
       case Undo(k) => pointer == None || pointer == k
       case Release(k, _) => pointer == None || pointer == k
  }

  predicate WorkOk(jobs: map<nat, Job>, store: map<Key, nat>, a: nat, w: Work) {
    && w.job in jobs && 1 <= w.attempts <= jobs[w.job].attempts
    && CarriesOk(Own(a, w), w.phase)
    && (Own(a, w) in store ==> MayHaveStored(Own(a, w), w.phase))
    && (jobs[w.job].status.Completed? ==> jobs[w.job].objectKey != Some(Own(a, w)))
    && (jobs[w.job].owner == Some(a) ==>
          w.attempts == jobs[w.job].attempts && HolderOk(Own(a, w), w.phase, jobs[w.job].objectKey, store))
  }

  predicate OverdueWith(job: Job, k: Key, clock: int) { Lapsed(job.expiresAt, clock) && job.objectKey == Some(k) }

  predicate SweepOk(jobs: map<nat, Job>, clock: int, sw: Sweep) {
    && sw.job in jobs && sw.key.job == sw.job
    && if !sw.completed then jobs[sw.job].status.Failed?
       else jobs[sw.job].status.Expired? || (jobs[sw.job].status.Completed? && OverdueWith(jobs[sw.job], sw.key, clock))
  }

  ghost predicate Inv(s: Sys) {
    && (forall j :: j in s.jobs ==> JobOk(j, s.jobs[j]))
    && (forall k :: k in s.store ==> KeyOk(s.jobs, k))
    && (forall j :: j in s.jobs && Unexpired(s.jobs[j], s.clock) ==> Available(s.jobs[j], s.store))
    && (forall a :: a in s.workers ==> WorkOk(s.jobs, s.store, a, s.workers[a]))
    && (forall x :: x in s.sweeps ==> SweepOk(s.jobs, s.clock, s.sweeps[x]))
  }

  // ---- How one actor may move the tables ----------------------------------------------------

  predicate SameArtifact(job: Job, job': Job) {
    job'.objectKey == job.objectKey && job'.checksum == job.checksum && job'.expiresAt == job.expiresAt
  }

  /** `actor` is the only worker that can come to hold the lease or to publish. */
  predicate JobMoves(j: nat, job: Job, job': Job, actor: Option<nat>) {
    && JobOk(j, job') && job.attempts <= job'.attempts
    && (job'.owner.None? || job'.owner == actor
        || (job'.owner == job.owner && job'.attempts == job.attempts && job'.objectKey == job.objectKey))
    && (job.status.Failed? ==> job'.status.Failed?)
    && (job.status.Expired? ==> job'.status.Expired?)
    && (job.status.Completed? ==> job'.status.Expired? || (job'.status.Completed? && SameArtifact(job, job')))
    && (job'.status.Completed? && !job.status.Completed? ==> Some(job'.objectKey.value.owner) == actor)
  }

  ghost predicate JobsMove(jobs: map<nat, Job>, jobs': map<nat, Job>, actor: Option<nat>) {
    jobs.Keys <= jobs'.Keys
    && (forall j :: j in jobs ==> jobs'[j] == jobs[j] || JobMoves(j, jobs[j], jobs'[j], actor))
    && (forall j :: j in jobs' && j !in jobs ==> JobOk(j, jobs'[j]) && jobs'[j].status.Queued?)
  }

  /** Who may delete an object: its own worker, a worker of a later attempt, or a sweep of a job that is over. */
  predicate MayDelete(jobs: map<nat, Job>, clock: int, k: Key, actor: Option<nat>) {
    && k.job in jobs
    && (Some(k.owner) == actor || k.attempts < jobs[k.job].attempts || !jobs[k.job].status.Running?)
    && (Unexpired(jobs[k.job], clock) ==> jobs[k.job].objectKey != Some(k))
  }

  ghost predicate StoreMoves(jobs: map<nat, Job>, clock: int, store: map<Key, nat>, store': map<Key, nat>, actor: Option<nat>) {
    && (forall k :: k in store' && k !in store ==> Some(k.owner) == actor && KeyOk(jobs, k))
    && (forall k :: k in store' && k in store && Some(k.owner) != actor ==> store'[k] == store[k])
    && (forall k :: k in store && k !in store' ==> MayDelete(jobs, clock, k, actor))
    && (forall j :: j in jobs && Unexpired(jobs[j], clock) && Available(jobs[j], store) && jobs[j].objectKey.value in store' ==>
          Available(jobs[j], store'))
  }

  lemma WorkStays(jobs: map<nat, Job>, jobs': map<nat, Job>, store: map<Key, nat>, store': map<Key, nat>,
                  clock: int, actor: Option<nat>, b: nat, w: Work)
    requires WorkOk(jobs, store, b, w) && actor != Some(b)
    requires JobsMove(jobs, jobs', actor) && StoreMoves(jobs, clock, store, store', actor)
    requires forall j :: j in jobs ==> JobOk(j, jobs[j])
    ensures WorkOk(jobs', store', b, w)
  {}

  lemma SweepStays(jobs: map<nat, Job>, jobs': map<nat, Job>, clock: int, clock': int, actor: Option<nat>, sw: Sweep)
    requires SweepOk(jobs, clock, sw) && JobsMove(jobs, jobs', actor) && clock <= clock'
    ensures SweepOk(jobs', clock', sw)
  {}

  lemma AvailableStays(jobs: map<nat, Job>, jobs': map<nat, Job>, store: map<Key, nat>, store': map<Key, nat>,
                       clock: int, clock': int, actor: Option<nat>, j: nat)
    requires JobsMove(jobs, jobs', actor) && StoreMoves(jobs, clock, store, store', actor) && clock <= clock'
    requires j in jobs && jobs[j].status.Completed? && Unexpired(jobs'[j], clock')
    requires Unexpired(jobs[j], clock) ==> Available(jobs[j], store)
    requires JobOk(j, jobs[j])
    ensures Available(jobs'[j], store')
  {}

  /** The part of a step that only the actor's own session has to answer for. */
  ghost predicate Moves(s: Sys, s': Sys, actor: Option<nat>) {
    && s.clock <= s'.clock
    && JobsMove(s.jobs, s'.jobs, actor) && StoreMoves(s.jobs, s.clock, s.store, s'.store, actor)
    && (forall j :: j in s'.jobs && Unexpired(s'.jobs[j], s'.clock) && !(j in s.jobs && s.jobs[j].status.Completed?) ==>
          Available(s'.jobs[j], s'.store))
    && (forall b :: b in s'.workers && Some(b) != actor ==> b in s.workers && s'.workers[b] == s.workers[b])
  }

  lemma MovesInv(s: Sys, s': Sys, actor: Option<nat>)
    requires Inv(s) && Moves(s, s', actor)
    requires actor.Some? && actor.value in s'.workers ==> WorkOk(s'.jobs, s'.store, actor.value, s'.workers[actor.value])
    requires forall x :: x in s'.sweeps ==>
               (x in s.sweeps && s'.sweeps[x].job == s.sweeps[x].job && s'.sweeps[x].key == s.sweeps[x].key
                && s'.sweeps[x].completed == s.sweeps[x].completed)
               || SweepOk(s'.jobs, s'.clock, s'.sweeps[x])
    ensures Inv(s')
  {
    forall j | j in s'.jobs ensures JobOk(j, s'.jobs[j]) {
      assert j in s.jobs ==> JobOk(j, s.jobs[j]);
    }
    forall k | k in s'.store ensures KeyOk(s'.jobs, k) {
      assert k in s.store ==> KeyOk(s.jobs, k);
    }
    forall j | j in s'.jobs && Unexpired(s'.jobs[j], s'.clock) ensures Available(s'.jobs[j], s'.store) {
      if j in s.jobs && s.jobs[j].status.Completed? {
        AvailableStays(s.jobs, s'.jobs, s.store, s'.store, s.clock, s'.clock, actor, j);
      }
    }
    forall b | b in s'.workers ensures WorkOk(s'.jobs, s'.store, b, s'.workers[b]) {
      if Some(b) != actor {
        WorkStays(s.jobs, s'.jobs, s.store, s'.store, s.clock, actor, b, s.workers[b]);
      }
    }
    forall x | x in s'.sweeps ensures SweepOk(s'.jobs, s'.clock, s'.sweeps[x]) {
      if x in s.sweeps { SweepStays(s.jobs, s'.jobs, s.clock, s'.clock, actor, s.sweeps[x]); }
    }
  }

  // ---- Step by step -------------------------------------------------------------------------

  lemma TickInv(s: Sys, now: int)
    requires Inv(s)
    ensures Inv(Tick(s, now))
  {}

  lemma CreateInv(s: Sys, j: nat, maxAttempts: nat)
    requires Inv(s)
    ensures Inv(Create(s, j, maxAttempts))
  {
    hide WorkOk, SweepOk, JobMoves, KeyOk, MayDelete, Available;
    MovesInv(s, Create(s, j, maxAttempts), None);
  }

  lemma RecoverInv(s: Sys)
    requires Inv(s)
    ensures Inv(Recover(s))
  {
    var s' := Recover(s);
    forall j | j in s.jobs ensures s'.jobs[j] == s.jobs[j] || JobMoves(j, s.jobs[j], s'.jobs[j], None) {
      assert JobOk(j, s.jobs[j]);
    }
    MovesInv(s, s', None);
  }

  lemma ClaimInv(s: Sys, a: nat, j: nat)
    requires Inv(s)
    ensures Inv(Claim(s, a, j))
  {
    if a !in s.workers && j in s.jobs && Claimable(s.jobs[j], s.clock) {
      var s' := Claim(s, a, j);
      assert JobOk(j, s.jobs[j]);
      assert Own(a, s'.workers[a]) in s.store ==> KeyOk(s.jobs, Own(a, s'.workers[a]));
      MovesInv(s, s', Some(a));
    }
  }

  lemma HeartbeatInv(s: Sys, a: nat)
    requires Inv(s)
    ensures Inv(Heartbeat(s, a))
  {
    if Renewable(s, a) {
      assert WorkOk(s.jobs, s.store, a, s.workers[a]);
      assert JobOk(s.workers[a].job, s.jobs[s.workers[a].job]);
      MovesInv(s, Heartbeat(s, a), Some(a));
    }
  }

  lemma EndInv(s: Sys, a: nat)
    requires Inv(s)
    ensures Inv(End(s, a))
  {}

  /** An unexpired completed job's object is out of a worker's reach. */
  lemma WorkerMayDelete(s: Sys, a: nat, k: Key)
    requires Inv(s) && a in s.workers
    requires k == Own(a, s.workers[a]) || (k.job == s.workers[a].job && k.attempts < s.workers[a].attempts)
    ensures MayDelete(s.jobs, s.clock, k, Some(a))
  {}

  lemma DeleteMoves(s: Sys, k: Key, actor: Option<nat>)
    requires k in s.store ==> MayDelete(s.jobs, s.clock, k, actor)
    ensures StoreMoves(s.jobs, s.clock, s.store, Delete(s, k).store, actor)
  {}

  /** Deleting a key and moving on: only the session itself is left to check. */
  lemma WorkerDeleteInv(s: Sys, a: nat, k: Key, s': Sys)
    requires Inv(s) && a in s.workers
    requires k == Own(a, s.workers[a]) || (k.job == s.workers[a].job && k.attempts < s.workers[a].attempts)
    requires s'.jobs == s.jobs && s'.clock == s.clock && s'.sweeps == s.sweeps && s'.store == Delete(s, k).store
    requires forall b :: b in s'.workers && b != a ==> b in s.workers && s'.workers[b] == s.workers[b]
    requires a in s'.workers ==> WorkOk(s'.jobs, s'.store, a, s'.workers[a])
    ensures Inv(s')
  {
    WorkerMayDelete(s, a, k);
    DeleteMoves(s, k, Some(a));
    MovesInv(s, s', Some(a));
  }

  lemma DeleteOldInv(s: Sys, a: nat, ok: bool)
    requires Inv(s)
    ensures Inv(DeleteOld(s, a, ok))
  {
    if In(s, a) && s.workers[a].phase.Clean? {
      var s' := DeleteOld(s, a, ok);
      assert WorkOk(s.jobs, s.store, a, s.workers[a]);
      if ok {
        WorkerDeleteInv(s, a, s.workers[a].phase.stale, s');
      } else {
        MovesInv(s, s', Some(a));
      }
    }
  }

  /** One row moves under its worker and nothing is stored or deleted: row and session are left to check. */
  lemma OneJobInv(s: Sys, a: nat, j: nat, job: Job, s': Sys)
    requires Inv(s) && j in s.jobs && JobMoves(j, s.jobs[j], job, Some(a))
    requires s' == SetJob(s, j, job).(workers := s'.workers)
    requires forall b :: b in s'.workers && b != a ==> b in s.workers && s'.workers[b] == s.workers[b]
    requires a in s'.workers ==> WorkOk(s'.jobs, s'.store, a, s'.workers[a])
    requires job.status.Completed? && !s.jobs[j].status.Completed? ==> Available(job, s.store)
    ensures Inv(s')
  {
    hide WorkOk, SweepOk, JobMoves, KeyOk, MayDelete, Available, JobOk;
    MovesInv(s, s', Some(a));
  }

  /** The lease holder rewrites the pointer of its running row. */
  lemma PointerMoves(s: Sys, a: nat, key: Option<Key>, phase: Phase)
    requires Holds(s, a) && WorkOk(s.jobs, s.store, a, s.workers[a])
    requires JobOk(s.workers[a].job, s.jobs[s.workers[a].job])
    requires var p := s.workers[a].phase;
             (p.Clear? && key.None? && phase.Plan?) || (p.Plan? && key == Some(Own(a, s.workers[a])) && phase.Renew?)
    ensures var w := s.workers[a]; var job := s.jobs[w.job].(objectKey := key);
            && JobMoves(w.job, s.jobs[w.job], job, Some(a)) && !job.status.Completed?
            && WorkOk(s.jobs[w.job := job], s.store, a, w.(phase := phase))
  {}

  lemma ClearPointerInv(s: Sys, a: nat)
    requires Inv(s)
    ensures Inv(ClearPointer(s, a))
  {
    if In(s, a) && s.workers[a].phase.Clear? {
      var j := s.workers[a].job;
      assert WorkOk(s.jobs, s.store, a, s.workers[a]);
      if !Holds(s, a) || s.jobs[j].objectKey != Some(s.workers[a].phase.stale) {
        EndInv(s, a);
      } else {
        PointerMoves(s, a, None, Plan);
        hide Inv, WorkOk, JobMoves;
        OneJobInv(s, a, j, s.jobs[j].(objectKey := None), ClearPointer(s, a));
      }
    }
  }

  lemma PlanKeyInv(s: Sys, a: nat)
    requires Inv(s)
    ensures Inv(PlanKey(s, a))
  {
    if In(s, a) && s.workers[a].phase.Plan? {
      var j := s.workers[a].job;
      assert WorkOk(s.jobs, s.store, a, s.workers[a]);
      if !Holds(s, a) {
        EndInv(s, a);
      } else {
        var own := Some(Own(a, s.workers[a]));
        PointerMoves(s, a, own, Renew);
        hide Inv, WorkOk, JobMoves;
        OneJobInv(s, a, j, s.jobs[j].(objectKey := own), PlanKey(s, a));
      }
    }
  }

  /** Only the session moves. */
  lemma ToInv(s: Sys, a: nat, phase: Phase)
    requires Inv(s) && a in s.workers && WorkOk(s.jobs, s.store, a, s.workers[a].(phase := phase))
    ensures Inv(To(s, a, phase))
  {}

  lemma RenewLeaseInv(s: Sys, a: nat)
    requires Inv(s)
    ensures Inv(RenewLease(s, a))
  {
    if In(s, a) && s.workers[a].phase.Renew? {
      if Renewable(s, a) {
        var s1 := Heartbeat(s, a);
        HeartbeatInv(s, a);
        assert WorkOk(s1.jobs, s1.store, a, s1.workers[a]);
        ToInv(s1, a, Upload);
      } else {
        EndInv(s, a);
      }
    }
  }

  lemma UploadKeyInv(s: Sys, a: nat, digest: nat, stored: bool, raised: bool)
    requires Inv(s)
    ensures Inv(UploadKey(s, a, digest, stored, raised))
  {
    if In(s, a) && s.workers[a].phase.Upload? {
      assert WorkOk(s.jobs, s.store, a, s.workers[a]);
      assert JobOk(s.workers[a].job, s.jobs[s.workers[a].job]);
      MovesInv(s, UploadKey(s, a, digest, stored, raised), Some(a));
    }
  }

  lemma CompletionMoves(s: Sys, a: nat, ttl: nat)
    requires Holds(s, a) && WorkOk(s.jobs, s.store, a, s.workers[a]) && s.workers[a].phase.Publish?
    requires JobOk(s.workers[a].job, s.jobs[s.workers[a].job])
    ensures var w := s.workers[a];
            var job := Completion(s.jobs[w.job], Own(a, w), w.phase.digest, s.clock, ttl);
            JobMoves(w.job, s.jobs[w.job], job, Some(a)) && Available(job, s.store)
  {}

  /** Publishing needs the lease, and whoever still has it also has its object. */
  lemma PublishKeyInv(s: Sys, a: nat, ttl: nat)
    requires Inv(s)
    ensures Inv(PublishKey(s, a, ttl))
  {
    if In(s, a) && s.workers[a].phase.Publish? {
      var w := s.workers[a];
      assert WorkOk(s.jobs, s.store, a, w);
      if !Holds(s, a) {
        ToInv(s, a, Drop);
      } else {
        CompletionMoves(s, a, ttl);
        hide Inv, WorkOk, JobMoves, Available, Completion;
        OneJobInv(s, a, w.job, Completion(s.jobs[w.job], Own(a, w), w.phase.digest, s.clock, ttl), PublishKey(s, a, ttl));
      }
    }
  }

  lemma DropKeyInv(s: Sys, a: nat)
    requires Inv(s)
    ensures Inv(DropKey(s, a))
  {
    if In(s, a) && s.workers[a].phase.Drop? {
      WorkerDeleteInv(s, a, Own(a, s.workers[a]), DropKey(s, a));
    }
  }

  lemma RaisedOk(s: Sys, a: nat, keyChosen: bool)
    requires a in s.workers && WorkOk(s.jobs, s.store, a, s.workers[a])
    ensures WorkOk(s.jobs, s.store, a, s.workers[a].(phase := Raise(s, a, keyChosen).workers[a].phase))
  {}

  lemma RaiseInv(s: Sys, a: nat, keyChosen: bool)
    requires Inv(s)
    ensures Inv(Raise(s, a, keyChosen))
  {
    if In(s, a) {
      assert WorkOk(s.jobs, s.store, a, s.workers[a]);
      var phase := Raise(s, a, keyChosen).workers[a].phase;
      assert Raise(s, a, keyChosen) == s || Raise(s, a, keyChosen) == To(s, a, phase);
      RaisedOk(s, a, keyChosen);
      if Raise(s, a, keyChosen) != s { ToInv(s, a, phase); }
    }
  }

  lemma UndoKeyInv(s: Sys, a: nat, ok: bool)
    requires Inv(s)
    ensures Inv(UndoKey(s, a, ok))
  {
    if In(s, a) && s.workers[a].phase.Undo? {
      var s' := UndoKey(s, a, ok);
      var durable := s.workers[a].phase.durable;
      assert WorkOk(s.jobs, s.store, a, s.workers[a]);
      if durable.Some? && ok {
        WorkerDeleteInv(s, a, durable.value, s');
      } else {
        MovesInv(s, s', Some(a));
      }
    }
  }

  lemma ReleasedMoves(j: nat, job: Job, durable: Option<Key>, cleaned: bool, now: int, a: nat)
    requires JobOk(j, job) && job.owner == Some(a)
    ensures JobMoves(j, job, Released(job, durable, cleaned, now), Some(a))
    ensures !Released(job, durable, cleaned, now).status.Completed?
  {}

  lemma ReleaseJobInv(s: Sys, a: nat)
    requires Inv(s)
    ensures Inv(ReleaseJob(s, a))
  {
    if In(s, a) && s.workers[a].phase.Release? {
      assert WorkOk(s.jobs, s.store, a, s.workers[a]);
      if Holds(s, a) {
        var w := s.workers[a];
        ReleasedMoves(w.job, s.jobs[w.job], w.phase.durable, w.phase.cleaned, s.clock, a);
        hide Released;
        MovesInv(s, ReleaseJob(s, a), Some(a));
      } else {
        EndInv(s, a);
      }
    }
  }

  lemma ExpireReadInv(s: Sys, x: nat, j: nat)
    requires Inv(s)
    ensures Inv(ExpireRead(s, x, j))
  {}

  lemma ExpireDeleteInv(s: Sys, x: nat)
    requires Inv(s)
    ensures Inv(ExpireDelete(s, x))
  {
    if x in s.sweeps && !s.sweeps[x].deleted {
      assert SweepOk(s.jobs, s.clock, s.sweeps[x]);
      DeleteMoves(s, s.sweeps[x].key, None);
      MovesInv(s, ExpireDelete(s, x), None);
    }
  }

  lemma ExpireClearInv(s: Sys, x: nat)
    requires Inv(s)
    ensures Inv(ExpireClear(s, x))
  {
    if x in s.sweeps && s.sweeps[x].deleted && ClearsRow(s, s.sweeps[x]) {
      var sw, s' := s.sweeps[x], ExpireClear(s, x);
      assert JobOk(sw.job, s.jobs[sw.job]);
      assert JobMoves(sw.job, s.jobs[sw.job], s'.jobs[sw.job], None);
      assert JobsMove(s.jobs, s'.jobs, None);
      hide JobMoves, JobsMove;
      MovesInv(s, s', None);
    } else {
      ExpireStopInv(s, x);
    }
  }

  lemma ExpirePostponeInv(s: Sys, x: nat)
    requires Inv(s)
    ensures Inv(ExpirePostpone(s, x))
  {
    if x in s.sweeps {
      assert SweepOk(s.jobs, s.clock, s.sweeps[x]);
      assert JobOk(s.sweeps[x].job, s.jobs[s.sweeps[x].job]);
      MovesInv(s, ExpirePostpone(s, x), None);
    }
  }

  lemma ExpireStopInv(s: Sys, x: nat)
    requires Inv(s)
    ensures Inv(ExpireStop(s, x))
  {}

  lemma NextInv(s: Sys, step: Step)
    requires Inv(s)
    ensures Inv(Next(s, step))
  {
    hide Inv;
    match step
    case TickStep(now) => TickInv(s, now);
    case CreateStep(j, maxAttempts) => CreateInv(s, j, maxAttempts);
    case RecoverStep => RecoverInv(s);
    case ClaimStep(a, j) => ClaimInv(s, a, j);
    case HeartbeatStep(a) => HeartbeatInv(s, a);
    case DeleteOldStep(a, ok) => DeleteOldInv(s, a, ok);
    case ClearPointerStep(a) => ClearPointerInv(s, a);
    case PlanKeyStep(a) => PlanKeyInv(s, a);
    case RenewLeaseStep(a) => RenewLeaseInv(s, a);
    case UploadStep(a, digest, stored, raised) => UploadKeyInv(s, a, digest, stored, raised);
    case PublishStep(a, ttl) => PublishKeyInv(s, a, ttl);
    case DropStep(a) => DropKeyInv(s, a);
    case RaiseStep(a, keyChosen) => RaiseInv(s, a, keyChosen);
    case UndoStep(a, ok) => UndoKeyInv(s, a, ok);
    case ReleaseStep(a) => ReleaseJobInv(s, a);
    case StopStep(a) => EndInv(s, a);
    case ExpireReadStep(x, j) => ExpireReadInv(s, x, j);
    case ExpireDeleteStep(x) => ExpireDeleteInv(s, x);
    case ExpireClearStep(x) => ExpireClearInv(s, x);
    case ExpirePostponeStep(x) => ExpirePostponeInv(s, x);
    case ExpireStopStep(x) => ExpireStopInv(s, x);
  }

  lemma {:induction false} RunInv(s: Sys, steps: seq<Step>)
    requires Inv(s)
    ensures Inv(Run(s, steps))
    decreases |steps|
  {
    if steps != [] {
      RunInv(s, steps[..|steps| - 1]);
      NextInv(Run(s, steps[..|steps| - 1]), steps[|steps| - 1]);
    }
  }

  lemma ReachableInv(steps: seq<Step>)
    ensures Inv(Run(Empty, steps))
  {
    RunInv(Empty, steps);
  }
}
