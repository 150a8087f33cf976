/** The projection_dlq table: enqueue, bulk resolve, and the leased retry of one row. */
module ProjectionDlq {
  import opened Prelude

  const MAX_ATTEMPTS := 10
  const RETRY_LEASE_SECONDS := 300

  /** The tenant and the dedupe key: event, workflow (hence projection name) and projection version. */
  datatype Key = Key(lane: Lane, event: nat, version: nat)

  datatype Row = Row(
    key: Key, resolved: bool, attempts: nat, maxAttempts: nat, nextAttemptAt: int,
    lockedBy: Option<nat>, leaseExpiresAt: Option<int>)

  /** Rows are never deleted here, so a position is a row id. */
  type Table = seq<Row>

  predicate OpenAt(t: Table, i: nat, k: Key) {
    i < |t| && t[i].key == k && !t[i].resolved
  }

  /** The row the partial unique index would report as a conflict. */
  function FindOpen(t: Table, k: Key): (r: Option<nat>)
    ensures r.Some? ==> OpenAt(t, r.value, k)
    ensures r.None? ==> forall i: nat :: !OpenAt(t, i, k)
    decreases |t|
  {
    if t == [] then None
    else if OpenAt(t, |t| - 1, k) then Some(|t| - 1)
    else
      var r := FindOpen(t[..|t| - 1], k);
      assert forall i: nat :: OpenAt(t, i, k) && i < |t| - 1 ==> OpenAt(t[..|t| - 1], i, k);
      r
  }

  ghost predicate HasOpen(t: Table, k: Key) {
    exists i: nat :: OpenAt(t, i, k)
  }

  function FreshRow(k: Key, now: int): Row {
    Row(k, false, 0, MAX_ATTEMPTS, now, None, None)
  }

  /** Upsert one open row per key; an existing one keeps its attempts and its lease. */
  function Enqueue(t: Table, k: Key, now: int): Table {
    var r := FindOpen(t, k);
    if r.Some? then t[r.value := t[r.value].(nextAttemptAt := Min(t[r.value].nextAttemptAt, now))]
    else t + [FreshRow(k, now)]
  }

  function EnqueueAll(t: Table, keys: seq<Key>, now: int): Table
    decreases |keys|
  {
    if keys == [] then t else Enqueue(EnqueueAll(t, keys[..|keys| - 1], now), keys[|keys| - 1], now)
  }

  predicate Unleased(row: Row, now: int) {
    row.lockedBy.None? || Lapsed(row.leaseExpiresAt, now)
  }

  function Closed(row: Row): Row {
    row.(resolved := true, lockedBy := None, leaseExpiresAt := None)
  }

  function ResolveRow(row: Row, keys: set<Key>, now: int): Row {
    if row.key in keys && !row.resolved && Unleased(row, now) then Closed(row) else row
  }

  /** Close the matching open rows that no live retrier holds. */
  function ResolveAll(t: Table, keys: set<Key>, now: int): Table {
    seq(|t|, i requires 0 <= i < |t| => ResolveRow(t[i], keys, now))
  }

  predicate CanTake(row: Row, now: int) {
    !row.resolved && row.attempts < row.maxAttempts && row.nextAttemptAt <= now
    && (row.leaseExpiresAt.None? || Lapsed(row.leaseExpiresAt, now))
  }

  function Taken(row: Row, owner: nat, now: int): Row {
    row.(attempts := row.attempts + 1, lockedBy := Some(owner), leaseExpiresAt := Some(now + RETRY_LEASE_SECONDS))
  }

  function RetryDelay(attempts: int): int {
    Min(3600, 30 * Pow2(Max(0, Min(attempts - 1, 7))))
  }

  function Rescheduled(row: Row, now: int, attempts: int): Row {
    row.(nextAttemptAt := now + RetryDelay(attempts), lockedBy := None, leaseExpiresAt := None)
  }

  // ---- Table invariants ---------------------------------------------------------------------

  /** At most one open row per key, and the bounded-attempts constraint. */
  ghost predicate Sound(t: Table) {
    && (forall i, j :: 0 <= i < j < |t| && !t[i].resolved && !t[j].resolved ==> t[i].key != t[j].key)
    && (forall i :: 0 <= i < |t| ==> t[i].attempts <= t[i].maxAttempts == MAX_ATTEMPTS)
  }

  /** Rows keep their identity, resolution is final, and attempts never fall. */
  ghost predicate Grows(t: Table, t': Table) {
    |t| <= |t'| && forall i :: 0 <= i < |t| ==>
      t'[i].key == t[i].key && (t[i].resolved ==> t'[i].resolved) && t[i].attempts <= t'[i].attempts
  }

  ghost function EventsOf(t: Table): set<nat> {
    set i | 0 <= i < |t| :: t[i].key.event
  }

  function EventsIn(keys: seq<Key>): set<nat> {
    set i | 0 <= i < |keys| :: keys[i].event
  }

  /** Which rows are resolved, by id. */
  ghost predicate SameResolved(t: Table, t': Table) {
    && |t| <= |t'|
    && (forall i :: 0 <= i < |t| ==> t'[i].resolved == t[i].resolved && t'[i].lockedBy == t[i].lockedBy)
    && (forall i :: |t| <= i < |t'| ==> !t'[i].resolved && t'[i].lockedBy.None?)
  }

  /** t' arises from t by enqueueing exactly these keys. */
  ghost predicate Enqueued(t: Table, t': Table, keys: seq<Key>) {
    && Sound(t') && Grows(t, t') && SameResolved(t, t')
    && EventsOf(t') == EventsOf(t) + EventsIn(keys)
    && (forall i :: |t| <= i < |t'| ==> t'[i].key in keys)
  }

  lemma EnqueueKeeps(t: Table, k: Key, now: int)
    requires Sound(t)
    ensures Enqueued(t, Enqueue(t, k, now), [k])
    ensures HasOpen(Enqueue(t, k, now), k)
  {
    var t' := Enqueue(t, k, now);
    var r := FindOpen(t, k);
    if r.Some? {
      assert OpenAt(t', r.value, k);
      assert forall i :: 0 <= i < |t| ==> t'[i].key.event == t[i].key.event;
    } else {
      assert OpenAt(t', |t|, k);
      assert forall i :: 0 <= i < |t| && !t[i].resolved ==> !OpenAt(t, i, k);
    }
    assert EventsIn([k]) == {k.event} by { assert [k][0] == k; }
    forall x | x in EventsOf(t) + {k.event} ensures x in EventsOf(t') {
      if x in EventsOf(t) {
        var i :| 0 <= i < |t| && t[i].key.event == x;
        assert t'[i].key.event == x;
      }
    }
  }

  lemma EnqueuedChain(t: Table, mid: Table, t': Table, keys: seq<Key>, k: Key)
    requires Enqueued(t, mid, keys) && Enqueued(mid, t', [k])
    ensures Enqueued(t, t', keys + [k])
  {
    assert EventsIn(keys + [k]) == EventsIn(keys) + EventsIn([k]) by {
      assert forall j :: 0 <= j < |keys| ==> (keys + [k])[j] == keys[j];
      assert (keys + [k])[|keys|] == k == [k][0];
    }
  }

  lemma NothingEnqueued(t: Table)
    requires Sound(t)
    ensures Enqueued(t, t, [])
  {}

  lemma EnqueuedIsSound(t: Table, t': Table, keys: seq<Key>)
    requires Enqueued(t, t', keys)
    ensures Sound(t')
  {}

  lemma {:induction false} EnqueueAllKeeps(t: Table, keys: seq<Key>, now: int)
    requires Sound(t)
    ensures Enqueued(t, EnqueueAll(t, keys, now), keys)
  {
    if keys == [] {
      NothingEnqueued(t);
    } else {
      hide Enqueue, Enqueued, Sound;
      var n := |keys| - 1;
      var mid := EnqueueAll(t, keys[..n], now);
      EnqueueAllKeeps(t, keys[..n], now);
      EnqueuedIsSound(t, mid, keys[..n]);
      EnqueueKeeps(mid, keys[n], now);
      EnqueuedChain(t, mid, Enqueue(mid, keys[n], now), keys[..n], keys[n]);
      assert keys == keys[..n] + [keys[n]];
    }
  }

  /** Afterwards every key has an open row. */
  lemma {:induction false} EnqueueAllOpens(t: Table, keys: seq<Key>, now: int)
    requires Sound(t)
    ensures forall j :: 0 <= j < |keys| ==> HasOpen(EnqueueAll(t, keys, now), keys[j])
  {
    if keys != [] {
      var n := |keys| - 1;
      var mid := EnqueueAll(t, keys[..n], now);
      EnqueueAllKeeps(t, keys[..n], now);
      EnqueueAllOpens(t, keys[..n], now);
      EnqueueKeeps(mid, keys[n], now);
      forall j | 0 <= j < n ensures HasOpen(EnqueueAll(t, keys, now), keys[j]) {
        assert keys[..n][j] == keys[j];
        var i: nat :| OpenAt(mid, i, keys[j]);
        assert OpenAt(EnqueueAll(t, keys, now), i, keys[j]);
      }
    }
  }

  lemma ResolveAllKeeps(t: Table, keys: set<Key>, now: int)
    requires Sound(t)
    ensures var t' := ResolveAll(t, keys, now);
            Sound(t') && Grows(t, t') && EventsOf(t') == EventsOf(t) && |t'| == |t|
    ensures forall i :: 0 <= i < |t| && ResolveAll(t, keys, now)[i].resolved && !t[i].resolved ==> t[i].key in keys
  {}

  lemma UpdateRowKeeps(t: Table, i: nat, row: Row)
    requires Sound(t) && i < |t|
    requires row.key == t[i].key && row.maxAttempts == t[i].maxAttempts
    requires t[i].attempts <= row.attempts <= row.maxAttempts
    requires t[i].resolved ==> row.resolved
    ensures var t' := t[i := row]; Sound(t') && Grows(t, t') && EventsOf(t') == EventsOf(t)
  {}

  // ---- Delays -------------------------------------------------------------------------------

  /** Half a minute after the first attempt, twice as long after each further one, and never more than an hour. */
  lemma RetryDelayDoubles(attempts: nat)
    requires attempts >= 1
    ensures RetryDelay(1) == 30 && RetryDelay(attempts + 1) == Min(3600, 2 * RetryDelay(attempts))
    ensures attempts >= 8 ==> RetryDelay(attempts) == 3600
  {
    assert Pow2(0) == 1;
    if attempts >= 8 { assert Pow2(7) == 128 by { assert Pow2(4) == 16; } }
    if attempts == 7 { assert Pow2(7) == 2 * Pow2(6) && Pow2(6) == 64 by { assert Pow2(3) == 8; } }
    if attempts < 7 { SmallPowers(attempts); }
  }

  /**
   * After an enqueue the key's open row is due no later than now; an existing row keeps everything else, a new one can
   * be taken exactly from now on, and no other row changes.
   */
  lemma EnqueueIsDue(t: Table, k: Key, now: int)
    ensures var t' := Enqueue(t, k, now);
            exists i: nat :: && OpenAt(t', i, k) && t'[i].nextAttemptAt <= now
              && (forall j :: 0 <= j < |t'| && j != i ==> j < |t| && t'[j] == t[j])
              && (if i < |t| then t'[i] == t[i].(nextAttemptAt := t'[i].nextAttemptAt) && (t'[i].nextAttemptAt == now || t'[i] == t[i])
                  else i == |t| && forall later :: CanTake(t'[i], later) <==> later >= now)
  {
    var t' := Enqueue(t, k, now);
    var r := FindOpen(t, k);
    var i: nat := if r.Some? then r.value else |t|;
    assert OpenAt(t', i, k);
  }
}
