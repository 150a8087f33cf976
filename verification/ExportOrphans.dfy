/** Stored objects that nobody is responsible for: when they cannot arise, and how they can. */
module ExportOrphans {
  import opened Prelude
  import opened Exports
  import opened ExportRuns
  import opened ExportTheorems

  /** The worker that uploaded k is still going to publish or delete it. */
  predicate Settling(k: Key, phase: Phase) { phase.Publish? || phase.Drop? || phase == Undo(Some(k)) }

  predicate WillSettle(s: Sys, k: Key) {
    k.owner in s.workers && Own(k.owner, s.workers[k.owner]) == k && Settling(k, s.workers[k.owner].phase)
  }

  predicate Pointed(s: Sys, k: Key) { k.job in s.jobs && s.jobs[k.job].objectKey == Some(k) }

  /** Somebody has deleted k and is about to clear the pointer to it. */
  predicate Cleared(k: Key, phase: Phase) { phase == Clear(k) || phase == Release(Some(k), true) }

  ghost predicate Pending(s: Sys, k: Key) {
    (exists b :: b in s.workers && Cleared(k, s.workers[b].phase))
    || exists x :: x in s.sweeps && s.sweeps[x].deleted && s.sweeps[x].key == k
  }

  ghost predicate Covered(s: Sys, k: Key) { WillSettle(s, k) || (Pointed(s, k) && !Pending(s, k)) }

  ghost predicate AllCovered(s: Sys) { forall k :: k in s.store ==> Covered(s, k) }

  /**
   * The two steps that end a worker's responsibility for its object: a crash, and a failed last delete. They are
   * safe as long as the row still names the object and nobody has already deleted it to clear that pointer.
   */
  ghost predicate Safe(s: Sys, step: Step) {
    match step
    case StopStep(a) => EndSafe(s, a)
    case UndoStep(a, ok) => UndoSafe(s, a, ok)
    case _ => true
  }

  ghost predicate StillNamed(s: Sys, k: Key) { k in s.store ==> Pointed(s, k) && !Pending(s, k) }

  ghost predicate EndSafe(s: Sys, a: nat) {
    a in s.workers && Settling(Own(a, s.workers[a]), s.workers[a].phase) ==> StillNamed(s, Own(a, s.workers[a]))
  }

  ghost predicate UndoSafe(s: Sys, a: nat, ok: bool) {
    a in s.workers && !ok && s.workers[a].phase == Undo(Some(Own(a, s.workers[a]))) ==> StillNamed(s, Own(a, s.workers[a]))
  }

  /** A worker that has already lost its lease neither stops nor fails its last delete while its object may exist. */
  predicate Gentle(s: Sys, step: Step) {
    match step
    case StopStep(a) => a in s.workers && Settling(Own(a, s.workers[a]), s.workers[a].phase) ==> Holds(s, a)
    case UndoStep(a, ok) => a in s.workers && !ok && s.workers[a].phase == Undo(Some(Own(a, s.workers[a]))) ==> Holds(s, a)
    case _ => true
  }

  // ---- Preservation -------------------------------------------------------------------------

  /** Nothing about k changes except possibly through the session of a worker that does not own it. */
  lemma CoverStays(s: Sys, s': Sys, actor: Option<nat>, k: Key)
    requires Covered(s, k)
    requires forall b :: b in s.workers && Some(b) != actor ==> b in s'.workers && s'.workers[b] == s.workers[b]
    requires forall b :: b in s'.workers && Some(b) != actor ==> b in s.workers
    requires WillSettle(s, k) && Some(k.owner) == actor ==> WillSettle(s', k)
    requires actor.Some? && actor.value in s'.workers ==> !Cleared(k, s'.workers[actor.value].phase)
    requires forall x :: x in s'.sweeps && s'.sweeps[x].deleted && s'.sweeps[x].key == k ==> x in s.sweeps && s.sweeps[x] == s'.sweeps[x]
    requires Pointed(s, k) && !Pending(s, k) ==> Pointed(s', k)
    ensures Covered(s', k)
  {}

  /** The lease holder's object is covered by the pointer alone. */
  lemma HolderIsPointed(s: Sys, a: nat)
    requires Inv(s) && Holds(s, a) && Own(a, s.workers[a]) in s.store
    requires Settling(Own(a, s.workers[a]), s.workers[a].phase)
    ensures Pointed(s, Own(a, s.workers[a])) && !Pending(s, Own(a, s.workers[a]))
  {}

  /** A session that ends: its own object is gone, published, or pointed at. */
  lemma EndCovered(s: Sys, a: nat)
    requires AllCovered(s) && EndSafe(s, a)
    ensures AllCovered(End(s, a))
  {}

  lemma DeleteOldCovered(s: Sys, a: nat, ok: bool)
    requires Inv(s) && AllCovered(s)
    ensures AllCovered(DeleteOld(s, a, ok))
  {
    if In(s, a) && s.workers[a].phase.Clean? {
      var s' := DeleteOld(s, a, ok);
      assert WorkOk(s.jobs, s.store, a, s.workers[a]);
      forall k | k in s'.store ensures Covered(s', k) { CoverStays(s, s', Some(a), k); }
    }
  }

  lemma ClearPointerCovered(s: Sys, a: nat)
    requires Inv(s) && AllCovered(s)
    ensures AllCovered(ClearPointer(s, a))
  {
    if In(s, a) && s.workers[a].phase.Clear? {
      var s' := ClearPointer(s, a);
      var stale := s.workers[a].phase.stale;
      assert WorkOk(s.jobs, s.store, a, s.workers[a]);
      if a in s'.workers {
        forall k | k in s'.store ensures Covered(s', k) {
          if k == stale { assert Pending(s, k); }
          CoverStays(s, s', Some(a), k);
        }
      } else {
        EndCovered(s, a);
      }
    }
  }

  lemma PlanKeyCovered(s: Sys, a: nat)
    requires Inv(s) && AllCovered(s)
    ensures AllCovered(PlanKey(s, a))
  {
    if In(s, a) && s.workers[a].phase.Plan? {
      var s' := PlanKey(s, a);
      assert WorkOk(s.jobs, s.store, a, s.workers[a]);
      if Holds(s, a) {
        forall k | k in s'.store ensures Covered(s', k) { CoverStays(s, s', Some(a), k); }
      } else {
        EndCovered(s, a);
      }
    }
  }

  lemma RenewLeaseCovered(s: Sys, a: nat)
    requires Inv(s) && AllCovered(s)
    ensures AllCovered(RenewLease(s, a)) && AllCovered(Heartbeat(s, a))
  {
    if In(s, a) {
      assert WorkOk(s.jobs, s.store, a, s.workers[a]);
      forall k | k in s.store ensures Covered(Heartbeat(s, a), k) { CoverStays(s, Heartbeat(s, a), None, k); }
      if s.workers[a].phase.Renew? {
        var s' := RenewLease(s, a);
        if Renewable(s, a) {
          forall k | k in s.store ensures Covered(s', k) { CoverStays(s, s', Some(a), k); }
        } else {
          EndCovered(s, a);
        }
      }
    }
  }

  lemma UploadCovered(s: Sys, a: nat, digest: nat, stored: bool, raised: bool)
    requires Inv(s) && AllCovered(s)
    ensures AllCovered(UploadKey(s, a, digest, stored, raised))
  {
    if In(s, a) && s.workers[a].phase.Upload? {
      var s' := UploadKey(s, a, digest, stored, raised);
      assert WorkOk(s.jobs, s.store, a, s.workers[a]);
      forall k | k in s'.store ensures Covered(s', k) {
        if k == Own(a, s.workers[a]) {
          assert WillSettle(s', k);
        } else {
          CoverStays(s, s', Some(a), k);
        }
      }
    }
  }

  lemma PublishCovered(s: Sys, a: nat, ttl: nat)
    requires Inv(s) && AllCovered(s)
    ensures AllCovered(PublishKey(s, a, ttl))
  {
    if In(s, a) && s.workers[a].phase.Publish? {
      var s' := PublishKey(s, a, ttl);
      var own := Own(a, s.workers[a]);
      assert WorkOk(s.jobs, s.store, a, s.workers[a]);
      if Holds(s, a) { HolderIsPointed(s, a); }
      forall k | k in s'.store ensures Covered(s', k) {
        if k == own && Holds(s, a) {
          assert Pointed(s', k) && !Pending(s', k);
        } else {
          CoverStays(s, s', Some(a), k);
        }
      }
    }
  }

  lemma DropCovered(s: Sys, a: nat)
    requires Inv(s) && AllCovered(s)
    ensures AllCovered(DropKey(s, a))
  {}

  lemma RaiseCovered(s: Sys, a: nat, keyChosen: bool)
    requires Inv(s) && AllCovered(s)
    ensures AllCovered(Raise(s, a, keyChosen))
  {
    if In(s, a) {
      var s' := Raise(s, a, keyChosen);
      assert WorkOk(s.jobs, s.store, a, s.workers[a]);
      forall k | k in s'.store && s' != s ensures Covered(s', k) { CoverStays(s, s', Some(a), k); }
    }
  }

  lemma UndoStillNamed(s: Sys, a: nat)
    requires a in s.workers && s.workers[a].phase == Undo(Some(Own(a, s.workers[a]))) && UndoSafe(s, a, false)
    requires Own(a, s.workers[a]) in s.store
    ensures Covered(UndoKey(s, a, false), Own(a, s.workers[a]))
  {}

  lemma UndoCovered(s: Sys, a: nat, ok: bool)
    requires Inv(s) && AllCovered(s) && UndoSafe(s, a, ok)
    ensures AllCovered(UndoKey(s, a, ok))
  {
    if In(s, a) && s.workers[a].phase.Undo? {
      var s' := UndoKey(s, a, ok);
      var own := Own(a, s.workers[a]);
      assert WorkOk(s.jobs, s.store, a, s.workers[a]);
      forall k | k in s'.store ensures Covered(s', k) {
        if k == own && WillSettle(s, k) {
          UndoStillNamed(s, a);
        } else {
          CoverStays(s, s', Some(a), k);
        }
      }
    }
  }

  lemma ReleaseCovered(s: Sys, a: nat)
    requires Inv(s) && AllCovered(s)
    ensures AllCovered(ReleaseJob(s, a))
  {
    if In(s, a) && s.workers[a].phase.Release? {
      var s' := ReleaseJob(s, a);
      assert WorkOk(s.jobs, s.store, a, s.workers[a]);
      if Holds(s, a) {
        forall k | k in s'.store ensures Covered(s', k) {
          if s.workers[a].phase == Release(Some(k), true) { assert Pending(s, k); }
          CoverStays(s, s', Some(a), k);
        }
      } else {
        EndCovered(s, a);
      }
    }
  }

  lemma ClaimCovered(s: Sys, a: nat, j: nat)
    requires Inv(s) && AllCovered(s)
    ensures AllCovered(Claim(s, a, j))
  {
    var s' := Claim(s, a, j);
    forall k | k in s'.store && s' != s ensures Covered(s', k) { CoverStays(s, s', Some(a), k); }
  }

  lemma TablesCovered(s: Sys, now: int, j: nat, maxAttempts: nat)
    requires Inv(s) && AllCovered(s)
    ensures AllCovered(Tick(s, now)) && AllCovered(Recover(s)) && AllCovered(Create(s, j, maxAttempts))
  {
    forall k | k in s.store
      ensures Covered(Tick(s, now), k) && Covered(Recover(s), k) && Covered(Create(s, j, maxAttempts), k)
    {
      CoverStays(s, Tick(s, now), None, k);
      CoverStays(s, Recover(s), None, k);
      CoverStays(s, Create(s, j, maxAttempts), None, k);
    }
  }

  lemma ExpireDeleteCovered(s: Sys, x: nat)
    requires Inv(s) && AllCovered(s)
    ensures AllCovered(ExpireDelete(s, x))
  {}

  lemma ExpireClearCovered(s: Sys, x: nat)
    requires Inv(s) && AllCovered(s)
    ensures AllCovered(ExpireClear(s, x))
  {
    var s' := ExpireClear(s, x);
    if x in s.sweeps && s.sweeps[x].deleted {
      assert SweepOk(s.jobs, s.clock, s.sweeps[x]);
      forall k | k in s'.store ensures Covered(s', k) {
        if k == s.sweeps[x].key { assert Pending(s, k); }
        CoverStays(s, s', None, k);
      }
    }
  }

  lemma ExpireRestCovered(s: Sys, x: nat, j: nat)
    requires Inv(s) && AllCovered(s)
    ensures AllCovered(ExpireRead(s, x, j)) && AllCovered(ExpirePostpone(s, x)) && AllCovered(ExpireStop(s, x))
  {
    forall k | k in s.store
      ensures Covered(ExpireRead(s, x, j), k) && Covered(ExpirePostpone(s, x), k) && Covered(ExpireStop(s, x), k)
    {
      CoverStays(s, ExpireRead(s, x, j), None, k);
      CoverStays(s, ExpirePostpone(s, x), None, k);
      CoverStays(s, ExpireStop(s, x), None, k);
    }
  }

  lemma NextCovered(s: Sys, step: Step)
    requires Inv(s) && AllCovered(s) && Safe(s, step)
    ensures AllCovered(Next(s, step))
  {
    hide Inv, AllCovered, EndSafe, UndoSafe;
    match step
    case TickStep(now) => TablesCovered(s, now, 0, 0);
    case CreateStep(j, maxAttempts) => TablesCovered(s, 0, j, maxAttempts);
    case RecoverStep => TablesCovered(s, 0, 0, 0);
    case ClaimStep(a, j) => ClaimCovered(s, a, j);
    case HeartbeatStep(a) => if Renewable(s, a) { RenewLeaseCovered(s, a); }
    case DeleteOldStep(a, ok) => DeleteOldCovered(s, a, ok);
    case ClearPointerStep(a) => ClearPointerCovered(s, a);
    case PlanKeyStep(a) => PlanKeyCovered(s, a);
    case RenewLeaseStep(a) => RenewLeaseCovered(s, a);
    case UploadStep(a, digest, stored, raised) => UploadCovered(s, a, digest, stored, raised);
    case PublishStep(a, ttl) => PublishCovered(s, a, ttl);
    case DropStep(a) => DropCovered(s, a);
    case RaiseStep(a, keyChosen) => RaiseCovered(s, a, keyChosen);
    case UndoStep(a, ok) => UndoCovered(s, a, ok);
    case ReleaseStep(a) => ReleaseCovered(s, a);
    case StopStep(a) => EndCovered(s, a);
    case ExpireReadStep(x, j) => ExpireRestCovered(s, x, j);
    case ExpireDeleteStep(x) => ExpireDeleteCovered(s, x);
    case ExpireClearStep(x) => ExpireClearCovered(s, x);
    case ExpirePostponeStep(x) => ExpireRestCovered(s, x, 0);
    case ExpireStopStep(x) => ExpireRestCovered(s, x, 0);
  }

  // ---- Runs ---------------------------------------------------------------------------------

  lemma StopUncovers(s: Sys, a: nat)
    requires Inv(s) && !EndSafe(s, a)
    ensures !AllCovered(End(s, a))
  {
    var own, s' := Own(a, s.workers[a]), End(s, a);
    assert own in s'.store && !WillSettle(s', own);
    assert WorkOk(s.jobs, s.store, a, s.workers[a]);
    if Pending(s, own) { PendingStays(s, s', a, own); }
  }

  lemma UndoUncovers(s: Sys, a: nat)
    requires Inv(s) && !UndoSafe(s, a, false)
    ensures !AllCovered(UndoKey(s, a, false))
  {
    var own, s' := Own(a, s.workers[a]), UndoKey(s, a, false);
    assert own in s'.store && !WillSettle(s', own);
    if Pending(s, own) { PendingStays(s, s', a, own); }
  }

  lemma PendingStays(s: Sys, s': Sys, a: nat, k: Key)
    requires Pending(s, k) && a in s.workers && !Cleared(k, s.workers[a].phase)
    requires forall b :: b in s.workers && b != a ==> b in s'.workers && s'.workers[b] == s.workers[b]
    requires s'.sweeps == s.sweeps
    ensures Pending(s', k)
  {}

  /** An unsafe step leaves the worker's object with neither a name nor anybody to settle it. */
  lemma UnsafeUncovers(s: Sys, step: Step)
    requires Inv(s) && !Safe(s, step)
    ensures !AllCovered(Next(s, step))
  {
    match step
    case StopStep(a) => StopUncovers(s, a);
    case UndoStep(a, ok) => UndoUncovers(s, a);
  }

  ghost predicate GentleRun(s: Sys, steps: seq<Step>) {
    forall n :: 0 <= n < |steps| ==> Gentle(Run(s, steps[..n]), steps[n])
  }

  ghost predicate CoveredThroughout(steps: seq<Step>) {
    forall n :: 0 <= n <= |steps| ==> AllCovered(Run(Empty, steps[..n]))
  }

  ghost predicate SafeThroughout(steps: seq<Step>) {
    forall n :: 0 <= n < |steps| ==> Safe(Run(Empty, steps[..n]), steps[n])
  }

  lemma {:induction false} SafeRunCovered(steps: seq<Step>, n: nat)
    requires SafeThroughout(steps) && n <= |steps|
    ensures AllCovered(Run(Empty, steps[..n]))
  {
    if n == 0 {
      assert steps[..0] == [];
    } else {
      SafeRunCovered(steps, n - 1);
      ReachableInv(steps[..n - 1]);
      RunStep(Empty, steps, n - 1);
      NextCovered(Run(Empty, steps[..n - 1]), steps[n - 1]);
    }
  }

  /** Exactly the unsafe steps create orphans: a run keeps every object covered iff all its steps are safe. */
  lemma CoveredExactlyWhenSafe(steps: seq<Step>)
    ensures CoveredThroughout(steps) <==> SafeThroughout(steps)
  {
    if SafeThroughout(steps) {
      forall n | 0 <= n <= |steps| ensures AllCovered(Run(Empty, steps[..n])) { SafeRunCovered(steps, n); }
    }
    if CoveredThroughout(steps) {
      forall n | 0 <= n < |steps| ensures Safe(Run(Empty, steps[..n]), steps[n]) {
        ReachableInv(steps[..n]);
        RunStep(Empty, steps, n);
        assert AllCovered(Run(Empty, steps[..n + 1]));
        if !Safe(Run(Empty, steps[..n]), steps[n]) { UnsafeUncovers(Run(Empty, steps[..n]), steps[n]); }
      }
    }
  }

  /** Whoever still holds the lease may crash at any point. */
  lemma GentleIsSafe(s: Sys, step: Step)
    requires Inv(s) && Gentle(s, step)
    ensures Safe(s, step)
  {
    match step
    case StopStep(a) =>
      if Holds(s, a) && Settling(Own(a, s.workers[a]), s.workers[a].phase) && Own(a, s.workers[a]) in s.store {
        HolderIsPointed(s, a);
      }
    case UndoStep(a, ok) =>
      if Holds(s, a) && Settling(Own(a, s.workers[a]), s.workers[a].phase) && Own(a, s.workers[a]) in s.store {
        HolderIsPointed(s, a);
      }
    case _ =>
  }

  /**
   * If no worker that already lost its lease stops, or fails its last delete, while its object may exist, then every
   * stored object is the one its job row names or has a live worker that will publish or delete it. Workers may
   * crash at any point while they hold the lease.
   */
  lemma NoOrphanArtifacts(steps: seq<Step>, k: Key)
    requires GentleRun(Empty, steps) && k in Run(Empty, steps).store
    ensures WillSettle(Run(Empty, steps), k) || Pointed(Run(Empty, steps), k)
  {
    forall n | 0 <= n < |steps| ensures Safe(Run(Empty, steps[..n]), steps[n]) {
      ReachableInv(steps[..n]);
      GentleIsSafe(Run(Empty, steps[..n]), steps[n]);
    }
    SafeRunCovered(steps, |steps|);
    assert steps[..|steps|] == steps;
  }
}
