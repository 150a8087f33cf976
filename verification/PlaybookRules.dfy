/** What the playbook's row rules mean for a caller: backoff, leases, summaries. */
module PlaybookRules {
  import opened Prelude
  import opened Playbooks
  import opened PlaybookRuns
  import opened PlaybookStatus

  /** Five seconds after the first attempt, twice as long after each further one, and never more than five minutes. */
  lemma BackoffDoubles(attempt: nat)
    requires attempt >= 1
    ensures Backoff(1, None) == 5 && Backoff(attempt + 1, None) == Min(300, 2 * Backoff(attempt, None))
    ensures attempt >= 7 ==> Backoff(attempt, None) == 300
  {
    assert Pow2(0) == 1;
    if attempt < 7 { SmallPowers(attempt); } else { LargePowers(attempt); }
  }

  lemma LargePowers(attempt: nat)
    requires attempt >= 7
    ensures Backoff(attempt, None) == 300
  {
    Pow2Grows(6, Min(attempt - 1, 10));
    assert Pow2(6) == 64 by { assert Pow2(3) == 8; }
  }

  /** A Retry-After can only lengthen the delay, up to five minutes. */
  lemma RetryAfterLengthens(attempt: nat, seconds: int)
    ensures Backoff(attempt, Some(seconds)) == Max(Backoff(attempt, None), if seconds < 0 then 0 else if seconds > 300 then 300 else seconds)
  {
    assert Backoff(attempt, None) <= 300;
    Pow2Grows(0, Max(0, Min(attempt - 1, 10)));
  }

  predicate AnyIs(rows: map<nat, Row>, status: Status) { exists i :: i in rows && rows[i].status == status }

  predicate AllAre(rows: map<nat, Row>, status: Status) { forall i :: i in rows ==> rows[i].status == status }

  /**
   * The run's status: anything running, else anything waiting for a retry, else anything waiting for an operator, else
   * what all actions agree on, else partial.
   */
  lemma SummaryMeans(rows: map<nat, Row>)
    ensures var r := Summarize(Statuses(rows));
            && (r.RunRunning? <==> AnyIs(rows, Running))
            && (r.RunRetrying? <==> !AnyIs(rows, Running) && AnyIs(rows, RetryScheduled))
            && (r.RunAwaitingAck? <==> !AnyIs(rows, Running) && !AnyIs(rows, RetryScheduled) && AnyIs(rows, AwaitingAck))
            && (r.RunSucceeded? <==> AllAre(rows, Succeeded))
            && (r.RunUnsupported? <==> rows != map[] && AllAre(rows, Unsupported))
            && (r.RunFailed? <==> rows != map[] && AllAre(rows, Status.Failed))
  {
    var values := Statuses(rows);
    forall status ensures status in values <==> AnyIs(rows, status) {}
    forall status ensures values <= {status} <==> AllAre(rows, status) {
      if AllAre(rows, status) { assert forall v :: v in values ==> v == status; }
      if values <= {status} { forall i | i in rows ensures rows[i].status == status { assert rows[i].status in values; } }
    }
    if i :| i in rows { assert rows[i].status in values; }
    assert forall status :: values == {status} <==> values != {} && values <= {status};
  }

  /** A running webhook whose lease ran out is either due for another attempt or finished, never both; others are neither. */
  lemma LapsedIsDueOrExhausted(row: Row, now: int)
    requires RowOk(row) && row.status.Running?
    ensures Lapsed(row.leaseExpiresAt, now) <==> Due(row, now) || Exhausted(row, now)
    ensures !(Due(row, now) && Exhausted(row, now))
    ensures Exhausted(row, now) ==> row.attempt == 5
  {}
}
