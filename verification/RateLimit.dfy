/** The sliding-window limiter: a Redis script over one sorted set of timestamps (rate_limit.py). */
module RateLimit {
  import opened Prelude

  const WINDOW_MS := 60_000

  // ---- The reference: a limiter that never forgets ---------------------------------------------

  predicate AllAfter(times: seq<nat>, cut: int) { forall i :: 0 <= i < |times| ==> times[i] > cut }

  predicate AllUpTo(times: seq<nat>, cut: int) { forall i :: 0 <= i < |times| ==> times[i] <= cut }

  /** The timestamps after a cut, in order. */
  function After(times: seq<nat>, cut: int): seq<nat> {
    if times == [] then []
    else After(times[..|times| - 1], cut) + if times[|times| - 1] > cut then [times[|times| - 1]] else []
  }

  /** A request is admitted when fewer than `limit` admissions lie in the window that ends now. */
  predicate Admits(history: seq<nat>, limit: int, now: nat) { |After(history, now - WINDOW_MS)| < limit }

  /** Every admission ever made, for calls at the given times. */
  function Admitted(limit: int, calls: seq<nat>): seq<nat> {
    if calls == [] then []
    else
      var now := calls[|calls| - 1];
      var history := Admitted(limit, calls[..|calls| - 1]);
      if Admits(history, limit, now) then history + [now] else history
  }

  predicate Sorted(times: seq<nat>) { forall i, j :: 0 <= i < j < |times| ==> times[i] <= times[j] }

  // ---- Windows and cuts ---------------------------------------------------------------------

  lemma AfterSnoc(times: seq<nat>, x: nat, cut: int)
    ensures After(times + [x], cut) == After(times, cut) + if x > cut then [x] else []
  {}

  lemma AfterSplit(times: seq<nat>, cut: int)
    requires times != []
    ensures var n := |times| - 1; After(times, cut) == After(times[..n], cut) + if times[n] > cut then [times[n]] else []
  {}

  lemma AfterNothing(cut: int)
    ensures After([], cut) == []
  {}

  lemma {:induction false} AfterIsAfter(times: seq<nat>, cut: int)
    ensures |After(times, cut)| <= |times| && AllAfter(After(times, cut), cut)
  {
    if times != [] { AfterIsAfter(times[..|times| - 1], cut); }
  }

  lemma AdmittedSnoc(limit: int, calls: seq<nat>, now: nat)
    ensures var history := Admitted(limit, calls);
            Admitted(limit, calls + [now]) == if Admits(history, limit, now) then history + [now] else history
  {}

  lemma {:induction false} CutTwice(times: seq<nat>, early: int, late: int)
    requires early <= late
    ensures After(After(times, early), late) == After(times, late)
  {
    if times == [] {
      AfterNothing(late);
    } else {
      var n := |times| - 1;
      CutTwice(times[..n], early, late);
      AfterSplit(times, early);
      AfterSplit(times, late);
      AfterSnoc(After(times[..n], early), times[n], late);
      hide After;
      assert After(times[..n], early) + [] == After(times[..n], early);
    }
  }

  lemma {:induction false} CutNothing(times: seq<nat>, cut: int)
    requires AllAfter(times, cut)
    ensures After(times, cut) == times
  {
    if times != [] {
      var n := |times| - 1;
      CutNothing(times[..n], cut);
      assert times == times[..n] + [times[n]];
    }
  }

  lemma {:induction false} CutEverything(times: seq<nat>, cut: int)
    requires AllUpTo(times, cut)
    ensures After(times, cut) == []
  {
    if times != [] { CutEverything(times[..|times| - 1], cut); }
  }

  lemma {:induction false} CutOldest(times: seq<nat>, cut: int)
    requires times != [] && times[0] <= cut
    ensures After(times, cut) == After(times[1..], cut)
  {
    if |times| == 1 {
      assert times[..0] == [] && times[1..] == [];
    } else {
      var n := |times| - 1;
      CutOldest(times[..n], cut);
      assert times[1..][..n - 1] == times[..n][1..];
    }
  }

  lemma {:induction false} CutLater(times: seq<nat>, early: int, late: int)
    requires early <= late
    ensures |After(times, late)| <= |After(times, early)|
    ensures (exists i :: 0 <= i < |times| && early < times[i] <= late) ==> |After(times, late)| < |After(times, early)|
  {
    if times != [] {
      var n := |times| - 1;
      CutLater(times[..n], early, late);
      assert times == times[..n] + [times[n]];
    }
  }

  lemma {:induction false} AdmittedSorted(limit: int, calls: seq<nat>)
    requires Sorted(calls)
    ensures Sorted(Admitted(limit, calls))
    ensures if calls == [] then Admitted(limit, calls) == [] else AllUpTo(Admitted(limit, calls), calls[|calls| - 1])
  {
    if calls != [] {
      var n := |calls| - 1;
      AdmittedSorted(limit, calls[..n]);
      assert n > 0 ==> calls[..n][n - 1] == calls[n - 1] <= calls[n];
    }
  }

  /** Admissions in the half-open window [from, from + 60 s). */
  function InWindow(history: seq<nat>, from: int): nat {
    if history == [] then 0
    else
      var last := history[|history| - 1];
      InWindow(history[..|history| - 1], from) + if from <= last < from + 60_000 then 1 else 0
  }

  lemma {:induction false} InWindowIsCut(history: seq<nat>, from: int, now: int)
    requires AllUpTo(history, now)
    requires from <= now < from + WINDOW_MS
    ensures InWindow(history, from) <= |After(history, now - WINDOW_MS)|
  {
    if history != [] {
      InWindowIsCut(history[..|history| - 1], from, now);
    }
  }

  lemma AdmissionFits(history: seq<nat>, limit: nat, now: nat, from: int)
    requires AllUpTo(history, now) && InWindow(history, from) <= limit && Admits(history, limit, now)
    ensures InWindow(history + [now], from) <= limit
  {
    assert (history + [now])[..|history|] == history;
    if from <= now < from + WINDOW_MS { InWindowIsCut(history, from, now); }
  }

  /** Every half-open 60 second window admits at most `limit` requests, wherever it starts. */
  lemma {:induction false} WindowAdmitsAtMostLimit(limit: nat, calls: seq<nat>, from: int)
    requires Sorted(calls)
    ensures InWindow(Admitted(limit, calls), from) <= limit
  {
    hide InWindow, Admits, After;
    if calls == [] {
      EmptyWindow(from);
    } else {
      var n := |calls| - 1;
      WindowAdmitsAtMostLimit(limit, calls[..n], from);
      AdmittedSorted(limit, calls[..n]);
      assert n > 0 ==> calls[..n][n - 1] <= calls[n];
      if Admits(Admitted(limit, calls[..n]), limit, calls[n]) {
        AdmissionFits(Admitted(limit, calls[..n]), limit, calls[n], from);
      }
    }
  }

  lemma EmptyWindow(from: int)
    ensures InWindow([], from) == 0
  {}

  /** At no moment does the window ending there hold more than `limit` admissions. */
  lemma {:induction false} NeverMoreThanLimit(limit: nat, calls: seq<nat>, now: int)
    requires Sorted(calls) && (calls != [] ==> calls[|calls| - 1] <= now)
    ensures |After(Admitted(limit, calls), now - WINDOW_MS)| <= limit
  {
    if calls != [] {
      var n := |calls| - 1;
      var history := Admitted(limit, calls[..n]);
      NeverMoreThanLimit(limit, calls[..n], now);
      if Admits(history, limit, calls[n]) {
        CutLater(history, calls[n] - WINDOW_MS, now - WINDOW_MS);
        AfterSnoc(history, calls[n], now - WINDOW_MS);
      }
    }
  }

  // ---- The retry time -----------------------------------------------------------------------

  /** What the script reports: until the oldest remembered entry leaves the window. */
  function RetryMs(scores: seq<nat>, now: nat): int {
    if scores == [] then WINDOW_MS else Max(1, WINDOW_MS - (now - scores[0]))
  }

  function CeilSeconds(ms: nat): nat { (ms + 999) / 1000 }

  /** The Retry-After header. */
  function RetryAfterSeconds(ms: nat): nat { Max(1, CeilSeconds(ms)) }

  lemma DeniedHasOldest(limit: nat, calls: seq<nat>, now: nat)
    requires Sorted(calls + [now]) && limit >= 1 && !Admits(Admitted(limit, calls), limit, now)
    ensures var recent := After(Admitted(limit, calls), now - WINDOW_MS);
            |recent| == limit && now - WINDOW_MS < recent[0] <= now && Sorted(recent)
  {
    hide Admitted, After, Sorted;
    var history := Admitted(limit, calls);
    SortedSoFar(calls, now);
    NeverMoreThanLimit(limit, calls, now);
    AdmittedSorted(limit, calls);
    AfterSorted(history, now - WINDOW_MS);
    if calls == [] { NothingAdmitted(limit); }
    AfterBelow(history, now - WINDOW_MS, now);
    AfterIsAfter(history, now - WINDOW_MS);
  }

  lemma SortedSoFar(calls: seq<nat>, now: nat)
    requires Sorted(calls + [now])
    ensures Sorted(calls) && (calls != [] ==> calls[|calls| - 1] <= now)
  {
    var all := calls + [now];
    forall i, j | 0 <= i < j < |calls| ensures calls[i] <= calls[j] {
      assert all[i] == calls[i] && all[j] == calls[j];
    }
    if calls != [] { assert all[|calls| - 1] <= all[|calls|]; }
  }

  lemma NothingAdmitted(limit: int)
    ensures Admitted(limit, []) == []
  {}

  lemma {:induction false} AfterBelow(times: seq<nat>, cut: int, top: int)
    requires AllUpTo(times, top)
    ensures AllUpTo(After(times, cut), top)
  {
    if times != [] { AfterBelow(times[..|times| - 1], cut, top); }
  }

  lemma {:induction false} AfterSorted(times: seq<nat>, cut: int)
    requires Sorted(times)
    ensures Sorted(After(times, cut))
  {
    if times != [] {
      AfterSorted(times[..|times| - 1], cut);
      AfterBelow(times[..|times| - 1], cut, times[|times| - 1]);
    }
  }

  /** With nobody else calling, a denied request stays denied before the reported moment and is admitted at it. */
  lemma RetryIsExact(limit: nat, calls: seq<nat>, now: nat, later: nat)
    requires Sorted(calls + [now]) && limit >= 1 && !Admits(Admitted(limit, calls), limit, now) && now <= later
    ensures var retry := RetryMs(After(Admitted(limit, calls), now - WINDOW_MS), now);
            1 <= retry <= WINDOW_MS && (Admits(Admitted(limit, calls), limit, later) <==> now + retry <= later)
  {
    var history := Admitted(limit, calls);
    var recent := After(history, now - WINDOW_MS);
    hide Admitted, After, Sorted;
    DeniedHasOldest(limit, calls, now);
    CutTwice(history, now - WINDOW_MS, later - WINDOW_MS);
    AfterIsAfter(history, now - WINDOW_MS);
    OldestDecides(recent, now - WINDOW_MS, later - WINDOW_MS);
  }

  /** A sorted list loses an entry to a later cut exactly when it loses its first. */
  lemma OldestDecides(recent: seq<nat>, early: int, late: int)
    requires recent != [] && Sorted(recent) && AllAfter(recent, early) && early <= late
    ensures |After(recent, late)| < |recent| <==> recent[0] <= late
  {}

  /** The header in whole seconds is the least one that suffices. */
  lemma RetryAfterSuffices(limit: nat, calls: seq<nat>, now: nat, seconds: nat)
    requires Sorted(calls + [now]) && limit >= 1 && !Admits(Admitted(limit, calls), limit, now)
    ensures var header := RetryAfterSeconds(RetryMs(After(Admitted(limit, calls), now - WINDOW_MS), now));
            Admits(Admitted(limit, calls), limit, now + 1000 * seconds) <==> header <= seconds
  {
    RetryIsExact(limit, calls, now, now + 1000 * seconds);
  }

  /** With no allowance at all the promise is void: nothing is ever admitted. */
  lemma NoAllowanceNeverAdmits(limit: int, history: seq<nat>, now: nat)
    requires limit <= 0
    ensures !Admits(history, limit, now)
  {}

  /** `remaining` is exact: of any number of further calls at the same moment, precisely that many are admitted. */
  lemma {:induction false} RemainingIsExact(limit: nat, calls: seq<nat>, now: nat, n: nat)
    requires Sorted(calls + [now])
    ensures var used := |After(Admitted(limit, calls), now - WINDOW_MS)|;
            && |Admitted(limit, calls + Copies(now, n))| == |Admitted(limit, calls)| + Min(n, Max(0, limit - used))
            && |After(Admitted(limit, calls + Copies(now, n)), now - WINDOW_MS)| == used + Min(n, Max(0, limit - used))
  {
    hide Admitted, After, Sorted;
    if n == 0 {
      assert calls + Copies(now, 0) == calls;
    } else {
      RemainingIsExact(limit, calls, now, n - 1);
      var before := calls + Copies(now, n - 1);
      assert calls + Copies(now, n) == before + [now];
      AdmittedSnoc(limit, before, now);
      AfterSnoc(Admitted(limit, before), now, now - WINDOW_MS);
    }
  }

  // ---- The script ---------------------------------------------------------------------------

  class SlidingWindow {
    const limit: int
    /** The sorted set's scores, smallest first. */
    var scores: seq<nat>
    var expiresAt: Option<int>
    ghost var calls: seq<nat>
    ghost var horizon: int

    constructor (limit: int)
      ensures this.limit == limit && calls == [] && Valid()
    {
      this.limit := limit;
      scores, expiresAt, calls, horizon := [], None, [], -WINDOW_MS;
    }

    /** What is remembered is the whole history minus entries that had already left the window. */
    ghost predicate Valid()
      reads this
    {
      && Sorted(calls)
      && scores == After(Admitted(limit, calls), horizon)
      && horizon + WINDOW_MS <= (if calls == [] then 0 else calls[|calls| - 1])
      && (Admitted(limit, calls) != [] ==> expiresAt.Some? && AllUpTo(Admitted(limit, calls), expiresAt.value - WINDOW_MS))
    }

    /**
     * `lapsed` says that the server has dropped the whole key, which it may do once its expiry time has come.
     * Admission, count and reset are those of the limiter that never forgets.
     */
    method Hit(now: nat, lapsed: bool) returns (allowed: bool, count: nat, retry: int)
      requires Valid() && (calls != [] ==> calls[|calls| - 1] <= now)
      requires lapsed ==> expiresAt.Some? && expiresAt.value <= now
      modifies this
      ensures Valid() && calls == old(calls) + [now]
      ensures allowed <==> Admits(Admitted(limit, old(calls)), limit, now)
      ensures Admitted(limit, calls) == Admitted(limit, old(calls)) + if allowed then [now] else []
      ensures count == |After(Admitted(limit, calls), now - WINDOW_MS)|
      ensures retry == RetryMs(After(Admitted(limit, calls), now - WINDOW_MS), now)
    {
      hide Admitted, After, Sorted, AllUpTo;
      ghost var history := Admitted(limit, calls);
      Remembered(limit, calls, horizon, now);
      AdmittedSnoc(limit, calls, now);
      AfterSnoc(history, now, now - WINDOW_MS);
      AllUpToSnoc(history, now);
      Forget(now, lapsed);
      calls, horizon := calls + [now], now - WINDOW_MS;
      count := |scores|;
      allowed := count < limit;
      if allowed {
        scores := scores + [now];
        expiresAt := Some(now + WINDOW_MS);
        count := count + 1;
      }
      assert scores == After(Admitted(limit, calls), horizon);
      retry := WINDOW_MS;
      if scores != [] {
        retry := Max(1, WINDOW_MS - (now - scores[0]));
      }
    }

    /** Afterwards the set holds exactly the admissions still in the window. */
    method Forget(now: nat, lapsed: bool)
      requires Valid() && (calls != [] ==> calls[|calls| - 1] <= now)
      requires lapsed ==> expiresAt.Some? && expiresAt.value <= now
      modifies this`scores
      ensures scores == After(Admitted(limit, calls), now - WINDOW_MS)
    {
      ghost var history := Admitted(limit, calls);
      Remembered(limit, calls, horizon, now);
      hide Admitted, After, Sorted, AllUpTo;
      if lapsed {
        if history != [] { LapsedIsEmpty(history, expiresAt.value, now); } else { AfterNothing(now - WINDOW_MS); }
        scores := [];
      } else {
        Evict(now - WINDOW_MS);
      }
    }

    /** ZREMRANGEBYSCORE from the low end. */
    method Evict(cut: int)
      requires Sorted(scores)
      modifies this`scores
      ensures scores == After(old(scores), cut)
    {
      while |scores| > 0 && scores[0] <= cut
        invariant Sorted(scores)
        invariant After(scores, cut) == After(old(scores), cut)
      {
        CutOldest(scores, cut);
        scores := scores[1..];
      }
      CutNothing(scores, cut);
    }
  }

  /** The expiry of the key never drops an entry that still counts. */
  lemma LapsedIsEmpty(history: seq<nat>, expiry: int, now: nat)
    requires AllUpTo(history, expiry - WINDOW_MS) && expiry <= now
    ensures After(history, now - WINDOW_MS) == []
  {
    assert AllUpTo(history, now - WINDOW_MS);
    CutEverything(history, now - WINDOW_MS);
  }

  lemma AllUpToSnoc(history: seq<nat>, now: nat)
    requires AllUpTo(history, now)
    ensures AllUpTo(history + [now], now + WINDOW_MS - WINDOW_MS)
  {}

  lemma Remembered(limit: int, calls: seq<nat>, horizon: int, now: nat)
    requires Sorted(calls) && (calls != [] ==> calls[|calls| - 1] <= now) && horizon <= now - WINDOW_MS
    ensures Sorted(calls + [now])
    ensures Sorted(After(Admitted(limit, calls), horizon)) && AllUpTo(Admitted(limit, calls), now)
    ensures After(After(Admitted(limit, calls), horizon), now - WINDOW_MS) == After(Admitted(limit, calls), now - WINDOW_MS)
  {
    AdmittedSorted(limit, calls);
    AfterSorted(Admitted(limit, calls), horizon);
    CutTwice(Admitted(limit, calls), horizon, now - WINDOW_MS);
  }
}
