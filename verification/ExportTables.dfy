/** The statements and loops of exports.py over the job table and the object store. */
module ExportTables {
  import opened Prelude
  import opened Exports
  import opened ExportRuns

  /** What the outside world does to one attempt: its store requests, its rendering, and its last cleanup. */
  datatype World = World(cleanOk: bool, renderOk: bool, stored: bool, uploadRaised: bool, digest: nat, undoOk: bool)

  /** Nothing raises: a stale artifact, if there is one, is deleted, and the new one rendered and uploaded. */
  predicate Smooth(world: World, job: Job) {
    (job.objectKey.Some? ==> world.cleanOk) && world.renderOk && !world.uploadRaised
  }

  function FirstPhase(job: Job): Phase {
    if job.objectKey.Some? then Clean(job.objectKey.value) else Plan
  }

  // ---- Where a lease holder's statement leads when it has the tables to itself ----------------

  predicate Held(s: Sys, a: nat, w: Work) {
    w.job in s.jobs && s.jobs[w.job].owner == Some(a) && s.jobs[w.job].status.Running? && w.attempts == s.jobs[w.job].attempts
  }

  function SetKey(s: Sys, j: nat, key: Option<Key>): Sys
    requires j in s.jobs
  {
    SetJob(s, j, s.jobs[j].(objectKey := key))
  }

  lemma LoneClean(s: Sys, a: nat, w: Work, ok: bool)
    requires w.phase.Clean?
    ensures Next(Goto(s, a, w), DeleteOldStep(a, ok)) ==
            if ok then Goto(Delete(s, w.phase.stale), a, w.(phase := Clear(w.phase.stale)))
            else Goto(s, a, w.(phase := Undo(Some(w.phase.stale))))
  {}

  lemma LoneClear(s: Sys, a: nat, w: Work)
    requires w.phase.Clear? && Held(s, a, w) && s.jobs[w.job].objectKey == Some(w.phase.stale)
    ensures Next(Goto(s, a, w), ClearPointerStep(a)) == Goto(SetKey(s, w.job, None), a, w.(phase := Plan))
  {}

  lemma LoneRaise(s: Sys, a: nat, w: Work)
    requires w.phase.Plan?
    ensures Next(Goto(s, a, w), RaiseStep(a, false)) == Goto(s, a, w.(phase := Undo(None)))
  {}

  lemma LonePlan(s: Sys, a: nat, w: Work)
    requires w.phase.Plan? && Held(s, a, w)
    ensures Next(Goto(s, a, w), PlanKeyStep(a)) ==
            Goto(SetKey(s, w.job, Some(Own(a, w))), a, w.(phase := Renew))
  {}

  function Extended(s: Sys, j: nat): Sys
    requires j in s.jobs
  {
    SetJob(s, j, s.jobs[j].(leaseExpiresAt := Some(s.clock + LEASE_SECONDS)))
  }

  lemma LoneRenew(s: Sys, a: nat, w: Work)
    requires w.phase.Renew? && Held(s, a, w)
    ensures Next(Goto(s, a, w), RenewLeaseStep(a)) == Goto(Extended(s, w.job), a, w.(phase := Upload))
  {}

  lemma LoneUpload(s: Sys, a: nat, w: Work, digest: nat, stored: bool, raised: bool)
    requires w.phase.Upload?
    ensures Next(Goto(s, a, w), UploadStep(a, digest, stored, raised)) ==
            Goto(if stored || !raised then s.(store := s.store[Own(a, w) := digest]) else s, a,
                 w.(phase := if raised then Undo(Some(Own(a, w))) else Publish(digest)))
  {}

  lemma LonePublish(s: Sys, a: nat, w: Work, ttl: nat)
    requires w.phase.Publish? && Held(s, a, w) && s.workers == map[]
    ensures Next(Goto(s, a, w), PublishStep(a, ttl)) ==
            SetJob(s, w.job, Completion(s.jobs[w.job], Own(a, w), w.phase.digest, s.clock, ttl))
  {}

  lemma LoneUndo(s: Sys, a: nat, w: Work, ok: bool)
    requires w.phase.Undo?
    ensures var cleaned := w.phase.durable.Some? && ok;
            Next(Goto(s, a, w), UndoStep(a, ok)) ==
            Goto(if cleaned then Delete(s, w.phase.durable.value) else s, a, w.(phase := Release(w.phase.durable, cleaned)))
  {}

  lemma LoneRelease(s: Sys, a: nat, w: Work)
    requires w.phase.Release? && Held(s, a, w) && s.workers == map[]
    ensures Next(Goto(s, a, w), ReleaseStep(a)) ==
            SetJob(s, w.job, Released(s.jobs[w.job], w.phase.durable, w.phase.cleaned, s.clock))
  {}

  /** What one row of a sweep turns into. */
  function Swept(job: Job, ok: bool, now: int): Job {
    if !ok then job.(nextAttemptAt := now + EXPIRY_RETRY_SECONDS)
    else if job.status.Completed? then job.(status := Expired, objectKey := None)
    else job.(objectKey := None)
  }

  /** The chosen rows are swept, each with the outcome of its own delete; the others are as they were. */
  predicate SweptRows(was: map<nat, Job>, now: map<nat, Job>, chosen: set<nat>, ok: Key -> bool, clock: int) {
    now.Keys == was.Keys && forall j :: j in was ==>
      now[j] == if j in chosen && was[j].objectKey.Some? then Swept(was[j], ok(was[j].objectKey.value), clock) else was[j]
  }

  predicate Untouched(was: map<nat, Job>, now: map<nat, Job>, rows: set<nat>) {
    forall j :: j in rows ==> j in was && j in now && now[j] == was[j]
  }

  lemma TakeOne(was: map<nat, Job>, now: map<nat, Job>, todo: set<nat>, j: nat)
    requires Untouched(was, now, todo) && j in todo
    ensures j in was && j in now && now[j] == was[j] && Untouched(was, now, todo - {j})
  {}

  lemma SweptNone(was: map<nat, Job>, rows: set<nat>, ok: Key -> bool, clock: int)
    requires rows <= was.Keys
    ensures SweptRows(was, was, {}, ok, clock) && Untouched(was, was, rows)
  {}

  lemma SweptOneMore(was: map<nat, Job>, before: map<nat, Job>, now: map<nat, Job>, chosen: set<nat>,
                     todo: set<nat>, j: nat, ok: Key -> bool, clock: int)
    requires SweptRows(was, before, chosen, ok, clock) && SweptRows(before, now, {j}, ok, clock)
    requires j in was && j !in chosen && j !in todo && Untouched(was, before, todo)
    ensures SweptRows(was, now, chosen + {j}, ok, clock) && Untouched(was, now, todo)
  {}

  lemma LoneSweep(s: Sys, j: nat, ok: bool)
    requires s.sweeps == map[] && j in s.jobs && Due(s.jobs[j], s.clock)
    ensures var r := Next(s, ExpireReadStep(0, j));
            (if ok then Next(Next(r, ExpireDeleteStep(0)), ExpireClearStep(0)) else Next(r, ExpirePostponeStep(0)))
            == SetJob(if ok then Delete(s, s.jobs[j].objectKey.value) else s, j, Swept(s.jobs[j], ok, s.clock))
  {
    var key := s.jobs[j].objectKey.value;
    var r := Next(s, ExpireReadStep(0, j));
    assert r.sweeps == map[0 := Sweep(j, key, s.jobs[j].status.Completed?, false)];
    var d := Next(r, ExpireDeleteStep(0));
    assert d.sweeps == map[0 := Sweep(j, key, s.jobs[j].status.Completed?, true)];
  }

  lemma LoneClaim(s: Sys, a: nat, j: nat)
    requires s.workers == map[] && j in s.jobs && Claimable(s.jobs[j], s.clock)
    ensures var job := Claimed(s.jobs[j], a, s.clock);
            Next(s, ClaimStep(a, j)) == Goto(SetJob(s, j, job), a, Work(j, job.attempts, FirstPhase(job)))
  {}

  predicate Oldest(jobs: map<nat, Job>, order: seq<nat>, now: int, k: int) {
    && 0 <= k < |order| && order[k] in jobs && Claimable(jobs[order[k]], now)
    && forall i :: 0 <= i < k && order[i] in jobs ==> !Claimable(jobs[order[i]], now)
  }

  /** A sweep leaves no claimable row where there was none. */
  lemma SweptNotClaimable(was: map<nat, Job>, now: map<nat, Job>, chosen: set<nat>, ok: Key -> bool, clock: int)
    requires SweptRows(was, now, chosen, ok, clock)
    requires forall j :: j in chosen ==> j in was && Due(was[j], clock)
    requires forall j :: j in was ==> !Claimable(was[j], clock)
    ensures forall j :: j in now ==> !Claimable(now[j], clock)
  {}

  /** No request and no rendering of the attempt raises. */
  predicate NothingFails(world: World) { world.cleanOk && world.renderOk && !world.uploadRaised }

  lemma SmoothWhenNothingFails(world: World, job: Job)
    ensures NothingFails(world) ==> Smooth(world, job)
  {}

  /**
   * The rows in `published` are completed until clock + ttl; of the others none has completed meanwhile, and none has
   * expired that had not expired or lapsed before.
   */
  predicate Published(was: map<nat, Job>, now: map<nat, Job>, published: set<nat>, clock: int, ttl: nat) {
    && published <= now.Keys == was.Keys
    && (forall j :: j in published ==> now[j].status.Completed? && now[j].expiresAt == Some(clock + ttl))
    && (forall j :: j in now && j !in published && now[j].status.Completed? ==> was[j].status.Completed?)
    && (forall j :: j in now && now[j].status.Expired? ==>
          was[j].status.Expired? || (was[j].status.Completed? && Lapsed(was[j].expiresAt, clock)))
    && (forall j :: j in now && was[j].status.Completed? ==>
          j !in published && (now[j].status.Expired? || (now[j].status.Completed? && now[j].expiresAt == was[j].expiresAt)))
  }

  lemma RecoverPublishes(s: Sys, clock: int, ttl: nat)
    requires s.clock == clock
    ensures Published(s.jobs, Next(s, RecoverStep).jobs, {}, clock, ttl)
  {}

  lemma ClaimPublishes(was: map<nat, Job>, now: map<nat, Job>, published: set<nat>, clock: int, ttl: nat, j: nat, job: Job)
    requires Published(was, now, published, clock, ttl) && j in now && Claimable(now[j], clock) && job.status.Running?
    ensures Published(was, now[j := job], published, clock, ttl) && j !in published && !was[j].status.Completed?
  {}

  lemma ProcessPublishes(was: map<nat, Job>, now: map<nat, Job>, published: set<nat>, clock: int, ttl: nat, j: nat, job: Job)
    requires Published(was, now, published, clock, ttl) && j in now && j !in published && now[j].status.Running?
    requires job.status.Completed? ==> job.expiresAt == Some(clock + ttl)
    requires !job.status.Completed? ==> job.status.RetryScheduled? || job.status.Failed?
    requires !was[j].status.Completed?
    ensures Published(was, now[j := job], if job.status.Completed? then published + {j} else published, clock, ttl)
  {}

  lemma SweepPublishes(was: map<nat, Job>, before: map<nat, Job>, now: map<nat, Job>, published: set<nat>, clock: int, ttl: nat,
                       chosen: set<nat>, ok: Key -> bool)
    requires Published(was, before, published, clock, ttl) && SweptRows(before, now, chosen, ok, clock) && ttl > 0
    requires forall j :: j in chosen ==> j in before && Due(before[j], clock)
    ensures Published(was, now, published, clock, ttl)
  {}

  lemma PublishedAvailable(s: Sys, was: map<nat, Job>, published: set<nat>, ttl: nat)
    requires Inv(s) && Published(was, s.jobs, published, s.clock, ttl) && ttl > 0
    ensures forall j :: j in published ==> Available(s.jobs[j], s.store)
  {
    forall j | j in published ensures Available(s.jobs[j], s.store) {
      assert Unexpired(s.jobs[j], s.clock);
    }
  }

  class ExportTables {
    var clock: int
    var jobs: map<nat, Job>
    var store: map<Key, nat>

    constructor ()
      ensures State() == Empty
    {
      clock, jobs, store := 0, map[], map[];
    }

    /** The durable part of the machine state. */
    function State(): Sys
      reads this
    {
      Sys(clock, jobs, store, map[], map[])
    }

    function At(a: nat, w: Work): Sys
      reads this
    {
      Goto(State(), a, w)
    }

    /** One UPDATE over every row whose lease ran out. */
    method RecoverExpiredLeases()
      modifies this`jobs
      ensures State() == Next(old(State()), RecoverStep) && jobs.Keys == old(jobs).Keys
    {
      var todo := jobs.Keys;
      while todo != {}
        invariant todo <= old(jobs).Keys == jobs.Keys
        invariant forall j :: j in jobs ==> jobs[j] == if j in todo then old(jobs)[j] else Recovered(old(jobs)[j], clock)
        decreases |todo|
      {
        var j :| j in todo;
        todo := todo - {j};
        var job := jobs[j];
        if job.status == Running && (job.leaseExpiresAt == None || job.leaseExpiresAt.value <= clock) {
          jobs := jobs[j := job.(status := if job.attempts >= job.maxAttempts then Failed else RetryScheduled,
                                 nextAttemptAt := clock, owner := None, leaseExpiresAt := None)];
        }
      }
      assert jobs == Recover(old(State())).jobs;
    }

    /** Takes the oldest claimable row, if there is one, and raises its attempt number; `order` lists the rows by creation. */
    method ClaimNext(a: nat, order: seq<nat>) returns (claimed: Option<nat>)
      requires forall j :: j in jobs ==> j in order
      modifies this`jobs
      ensures claimed.None? <==> forall j :: j in old(jobs) ==> !Claimable(old(jobs)[j], clock)
      ensures claimed.None? ==> jobs == old(jobs)
      ensures claimed.Some? ==> exists k :: Oldest(old(jobs), order, clock, k) && claimed.value == order[k]
      ensures claimed.Some? ==> jobs == old(jobs)[claimed.value := Claimed(old(jobs)[claimed.value], a, clock)]
    {
      for i := 0 to |order|
        invariant jobs == old(jobs)
        invariant forall k :: 0 <= k < i ==> order[k] in jobs ==> !Claimable(jobs[order[k]], clock)
      {
        var j := order[i];
        if j in jobs && Claimable(jobs[j], clock) {
          assert Oldest(jobs, order, clock, i);
          jobs := jobs[j := jobs[j].(status := Running, attempts := jobs[j].attempts + 1, owner := Some(a),
                                     leaseExpiresAt := Some(clock + LEASE_SECONDS))];
          return Some(j);
        }
      }
      return None;
    }

    /** Deletes the artifact an earlier attempt left behind and clears the pointer to it. */
    method CleanStale(a: nat, w: Work, ok: bool) returns (w': Work, ghost steps: seq<Step>)
      requires w.phase.Clean? && Held(State(), a, w) && jobs[w.job].objectKey == Some(w.phase.stale)
      modifies this`jobs, this`store
      ensures At(a, w') == Run(old(At(a, w)), steps) && Held(State(), a, w')
      ensures w' == w.(phase := if ok then Plan else Undo(Some(w.phase.stale)))
      ensures jobs[w.job].objectKey == if ok then None else old(jobs)[w.job].objectKey
      ensures store == if ok then old(store) - {w.phase.stale} else old(store)
      ensures jobs[w.job].attempts == old(jobs)[w.job].attempts && jobs[w.job].maxAttempts == old(jobs)[w.job].maxAttempts
      ensures jobs == old(jobs)[w.job := jobs[w.job]]
    {
      hide Next, Run;
      ghost var s0 := At(a, w);
      assert Run(s0, []) == s0 by { RunNothing(s0); }
      RunSnoc(s0, [], DeleteOldStep(a, ok));
      LoneClean(State(), a, w, ok);
      steps := [] + [DeleteOldStep(a, ok)];
      if !ok { return w.(phase := Undo(Some(w.phase.stale))), steps; }
      store := store - {w.phase.stale};
      var w1 := w.(phase := Clear(w.phase.stale));
      RunSnoc(s0, steps, ClearPointerStep(a));
      LoneClear(State(), a, w1);
      steps := steps + [ClearPointerStep(a)];
      jobs := jobs[w.job := jobs[w.job].(objectKey := None)];
      w' := w.(phase := Plan);
      assert w1.(phase := Plan) == w';
    }

    /** Records the attempt's key, renews the lease at the upload boundary, and uploads. */
    method PlanAndUpload(a: nat, w: Work, world: World) returns (w': Work, ghost steps: seq<Step>)
      requires w.phase.Plan? && Held(State(), a, w)
      modifies this`jobs, this`store
      ensures At(a, w') == Run(old(At(a, w)), steps) && Held(State(), a, w')
      ensures w' == w.(phase := if !world.renderOk then Undo(None)
                                else if world.uploadRaised then Undo(Some(Own(a, w))) else Publish(world.digest))
      ensures world.renderOk ==> jobs[w.job].objectKey == Some(Own(a, w))
      ensures world.renderOk && !world.uploadRaised ==> store == old(store)[Own(a, w) := world.digest]
      ensures jobs[w.job].attempts == old(jobs)[w.job].attempts && jobs[w.job].maxAttempts == old(jobs)[w.job].maxAttempts
      ensures jobs == old(jobs)[w.job := jobs[w.job]]
    {
      hide Next, Run;
      ghost var s0 := At(a, w);
      RunNothing(s0);
      if !world.renderOk {
        RunSnoc(s0, [], RaiseStep(a, false));
        LoneRaise(State(), a, w);
        return w.(phase := Undo(None)), [] + [RaiseStep(a, false)];
      }
      RunSnoc(s0, [], PlanKeyStep(a));
      LonePlan(State(), a, w);
      steps := [] + [PlanKeyStep(a)];
      var durableObjectKey := Own(a, w);
      jobs := jobs[w.job := jobs[w.job].(objectKey := Some(durableObjectKey))];
      var w1 := w.(phase := Renew);
      RunSnoc(s0, steps, RenewLeaseStep(a));
      LoneRenew(State(), a, w1);
      steps := steps + [RenewLeaseStep(a)];
      jobs := jobs[w.job := jobs[w.job].(leaseExpiresAt := Some(clock + LEASE_SECONDS))];
      var w2 := w1.(phase := Upload);
      RunSnoc(s0, steps, UploadStep(a, world.digest, world.stored, world.uploadRaised));
      LoneUpload(State(), a, w2, world.digest, world.stored, world.uploadRaised);
      steps := steps + [UploadStep(a, world.digest, world.stored, world.uploadRaised)];
      if world.stored || !world.uploadRaised {
        store := store[durableObjectKey := world.digest];
      }
      w' := w2.(phase := if world.uploadRaised then Undo(Some(durableObjectKey)) else Publish(world.digest));
    }

    /** The handler of any exception: one more delete, and a guarded release of the row. */
    method HandleException(a: nat, w: Work, ok: bool) returns (ghost steps: seq<Step>)
      requires w.phase.Undo? && Held(State(), a, w)
      modifies this`jobs, this`store
      ensures State() == Run(old(At(a, w)), steps)
      ensures w.job in jobs && jobs[w.job].owner.None? && jobs == old(jobs)[w.job := jobs[w.job]]
      ensures jobs[w.job].status == if old(jobs)[w.job].attempts >= old(jobs)[w.job].maxAttempts then Failed else RetryScheduled
    {
      hide Next, Run;
      ghost var s0 := At(a, w);
      RunNothing(s0);
      RunSnoc(s0, [], UndoStep(a, ok));
      LoneUndo(State(), a, w, ok);
      steps := [] + [UndoStep(a, ok)];
      var cleanupSucceeded := false;
      if w.phase.durable.Some? && ok {
        store := store - {w.phase.durable.value};
        cleanupSucceeded := true;
      }
      var w1 := w.(phase := Release(w.phase.durable, cleanupSucceeded));
      RunSnoc(s0, steps, ReleaseStep(a));
      LoneRelease(State(), a, w1);
      steps := steps + [ReleaseStep(a)];
      var job := jobs[w.job];
      jobs := jobs[w.job := job.(status := if job.attempts >= job.maxAttempts then Failed else RetryScheduled,
                                 nextAttemptAt := clock + RetryDelay(job.attempts),
                                 objectKey := if cleanupSucceeded && job.objectKey == w.phase.durable then None else job.objectKey,
                                 owner := None, leaseExpiresAt := None)];
    }

    /**
     * One attempt without interference. It is a run of the machine; it publishes exactly when nothing went wrong,
     * and then the published artifact is the one it stored, and it lapses exactly `ttl` seconds from now.
     */
    method ProcessClaimedJob(a: nat, j: nat, world: World, ttl: nat) returns (ghost steps: seq<Step>)
      requires j in jobs && Held(State(), a, Work(j, jobs[j].attempts, FirstPhase(jobs[j])))
      modifies this`jobs, this`store
      ensures State() == Run(old(At(a, Work(j, jobs[j].attempts, FirstPhase(jobs[j])))), steps)
      ensures j in jobs && jobs[j].owner.None? && jobs == old(jobs)[j := jobs[j]]
      ensures jobs[j].status.Completed? <==> Smooth(world, old(jobs)[j])
      ensures !jobs[j].status.Completed? ==> jobs[j].status.RetryScheduled? || jobs[j].status.Failed?
      ensures Smooth(world, old(jobs)[j]) ==> Available(jobs[j], store) && jobs[j].checksum == Some(world.digest)
      ensures Smooth(world, old(jobs)[j]) ==> jobs[j].objectKey == Some(Key(j, old(jobs)[j].attempts, a))
      ensures Smooth(world, old(jobs)[j]) ==> jobs[j].expiresAt == Some(clock + ttl)
      ensures Smooth(world, old(jobs)[j]) ==>
                forall later :: (Lapsed(jobs[j].expiresAt, later) <==> later >= clock + ttl)
                             && (Due(jobs[j], later) <==> later >= clock + ttl)
    {
      hide Next, Run;
      ghost var s0 := At(a, Work(j, jobs[j].attempts, FirstPhase(jobs[j])));
      ghost var more;
      var w := Work(j, jobs[j].attempts, FirstPhase(jobs[j]));
      steps := [];
      RunNothing(s0);
      if w.phase.Clean? {
        w, more := CleanStale(a, w, world.cleanOk);
        RunConcat(s0, steps, more);
        steps := steps + more;
      }
      if w.phase.Plan? {
        w, more := PlanAndUpload(a, w, world);
        RunConcat(s0, steps, more);
        steps := steps + more;
      }
      if w.phase.Publish? {
        LonePublish(State(), a, w, ttl);
        RunSnoc(s0, steps, PublishStep(a, ttl));
        steps := steps + [PublishStep(a, ttl)];
        jobs := jobs[j := jobs[j].(status := Completed, objectKey := Some(Own(a, w)), checksum := Some(w.phase.digest),
                                   expiresAt := Some(clock + ttl), owner := None, leaseExpiresAt := None,
                                   nextAttemptAt := clock)];
      } else {
        more := HandleException(a, w, world.undoOk);
        RunConcat(s0, steps, more);
        steps := steps + more;
      }
    }

    /**
     * One tick of a worker: recover, then claim and process one job at a time, oldest first and at most `limit` of
     * them, then sweep up to 50 overdue artifacts. `deletes` says which of the sweep's deletes succeed. Whatever it
     * published can be downloaded afterwards, until its time has come, and it expires nothing before its time.
     */
    method TickExportJobs(a: nat, order: seq<nat>, limit: nat, worlds: nat -> World, ttl: nat, deletes: Key -> bool)
      returns (processed: nat, ghost published: set<nat>, ghost steps: seq<Step>)
      requires forall j :: j in jobs ==> j in order
      modifies this`jobs, this`store
      ensures State() == Run(old(State()), steps)
      ensures processed <= Max(1, Min(limit, 25))
      ensures processed < Max(1, Min(limit, 25)) ==> forall j :: j in jobs ==> !Claimable(jobs[j], clock)
      ensures (forall n :: NothingFails(worlds(n))) ==> |published| == processed
      ensures ttl > 0 ==> Published(old(jobs), jobs, published, clock, ttl)
      ensures ttl > 0 && Inv(old(State())) ==> forall j :: j in published ==> Available(jobs[j], store)
    {
      ghost var s0 := State();
      RunNothing(s0);
      hide Next, Run, SweptRows, Claimable, Published, NothingFails, Smooth, Available, Due, Inv;
      RecoverExpiredLeases();
      RunSnoc(s0, [], RecoverStep);
      steps := [] + [RecoverStep];
      processed, published := 0, {};
      RecoverPublishes(s0, clock, ttl);
      var idle := false;
      while processed < Max(1, Min(limit, 25)) && !idle
        invariant processed <= Max(1, Min(limit, 25))
        invariant State() == Run(s0, steps) && jobs.Keys == old(jobs).Keys
        invariant idle ==> forall j :: j in jobs ==> !Claimable(jobs[j], clock)
        invariant Published(old(jobs), jobs, published, clock, ttl)
        invariant (forall n :: NothingFails(worlds(n))) ==> |published| == processed
        decreases Max(1, Min(limit, 25)) - processed, !idle
      {
        ghost var s1 := State();
        var claimed := ClaimNext(a, order);
        if claimed == None {
          idle := true;
        } else {
          var j := claimed.value;
          LoneClaim(s1, a, j);
          RunSnoc(s0, steps, ClaimStep(a, j));
          steps := steps + [ClaimStep(a, j)];
          ClaimPublishes(old(jobs), s1.jobs, published, clock, ttl, j, jobs[j]);
          ghost var claimedJobs := jobs;
          SmoothWhenNothingFails(worlds(processed), jobs[j]);
          ghost var more := ProcessClaimedJob(a, j, worlds(processed), ttl);
          ProcessPublishes(old(jobs), claimedJobs, published, clock, ttl, j, jobs[j]);
          if jobs[j].status == Completed { published := published + {j}; }
          RunConcat(s0, steps, more);
          steps := steps + more;
          processed := processed + 1;
        }
      }
      ghost var was := jobs;
      ghost var chosen, more := ExpireArtifacts(50, deletes);
      RunConcat(s0, steps, more);
      steps := steps + more;
      if idle { SweptNotClaimable(was, jobs, chosen, deletes, clock); }
      if ttl > 0 {
        SweepPublishes(old(jobs), was, jobs, published, clock, ttl, chosen, deletes);
        if Inv(s0) {
          RunInv(s0, steps);
          PublishedAvailable(State(), old(jobs), published, ttl);
        }
      }
    }

    /** Deletes one overdue artifact and settles its row. */
    method ExpireOne(j: nat, deletes: Key -> bool) returns (ghost steps: seq<Step>)
      requires j in jobs && Due(jobs[j], clock)
      modifies this`jobs, this`store
      ensures State() == Run(old(State()), steps)
      ensures SweptRows(old(jobs), jobs, {j}, deletes, clock)
      ensures var key := old(jobs)[j].objectKey.value; store == if deletes(key) then old(store) - {key} else old(store)
    {
      hide Next, Run;
      ghost var s0 := State();
      RunNothing(s0);
      var key := jobs[j].objectKey.value;
      var ok := deletes(key);
      LoneSweep(s0, j, ok);
      if ok {
        RunSnoc(s0, [], ExpireReadStep(0, j));
        RunSnoc(s0, [] + [ExpireReadStep(0, j)], ExpireDeleteStep(0));
        RunSnoc(s0, [] + [ExpireReadStep(0, j)] + [ExpireDeleteStep(0)], ExpireClearStep(0));
        steps := [] + [ExpireReadStep(0, j)] + [ExpireDeleteStep(0)] + [ExpireClearStep(0)];
        store := store - {key};
        if jobs[j].status == Completed {
          jobs := jobs[j := jobs[j].(status := Expired, objectKey := None)];
        } else {
          jobs := jobs[j := jobs[j].(objectKey := None)];
        }
      } else {
        RunSnoc(s0, [], ExpireReadStep(0, j));
        RunSnoc(s0, [] + [ExpireReadStep(0, j)], ExpirePostponeStep(0));
        steps := [] + [ExpireReadStep(0, j)] + [ExpirePostponeStep(0)];
        jobs := jobs[j := jobs[j].(nextAttemptAt := clock + EXPIRY_RETRY_SECONDS)];
      }
    }

    /** One expiry sweep over at most `limit` overdue rows; a row whose delete fails is postponed. */
    method ExpireArtifacts(limit: nat, ok: Key -> bool) returns (ghost chosen: set<nat>, ghost steps: seq<Step>)
      modifies this`jobs, this`store
      ensures State() == Run(old(State()), steps)
      ensures chosen <= old(DueRows()) && |chosen| <= Max(1, Min(limit, 200))
      ensures |chosen| < Max(1, Min(limit, 200)) ==> chosen == old(DueRows())
      ensures SweptRows(old(jobs), jobs, chosen, ok, clock)
    {
      hide Run, Next, SweptRows, Untouched, Due;
      ghost var s0, was, all := State(), jobs, DueRows();
      var todo := DueRows();
      SweptNone(was, all, ok, clock);
      RunNothing(s0);
      chosen, steps := {}, [];
      var taken := 0;
      while todo != {} && taken < Max(1, Min(limit, 200))
        invariant State() == Run(s0, steps)
        invariant chosen !! todo && chosen + todo == all
        invariant |chosen| == taken <= Max(1, Min(limit, 200))
        invariant SweptRows(was, jobs, chosen, ok, clock) && Untouched(was, jobs, todo)
        decreases |todo|
      {
        var j :| j in todo;
        TakeOne(was, jobs, todo, j);
        todo := todo - {j};
        ghost var before := jobs;
        ghost var more := ExpireOne(j, ok);
        SweptOneMore(was, before, jobs, chosen, todo, j, ok, clock);
        RunConcat(s0, steps, more);
        steps := steps + more;
        chosen := chosen + {j};
        taken := taken + 1;
      }
    }

    function DueRows(): set<nat>
      reads this
    {
      set j | j in jobs && Due(jobs[j], clock)
    }
  }
}
