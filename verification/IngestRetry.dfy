/** A client that lost its response and sends the same request again finds and resumes its own receipts. */
module IngestRetry {
  import opened Prelude
  import opened IngestPlane
  import opened IngestLog
  import opened IngestReceipts
  import opened IngestRuns
  import opened IngestSteps
  import opened IngestTheorems

  /** The ids an all-duplicate request names in one group, in the answers of its acceptance. */
  function GroupIds(request: seq<Submission>, answers: seq<Answer>, g: GroupKey): set<nat> {
    set i | 0 <= i < |answers| && i < |request| && GroupOfSubmission(request[i]) == g :: answers[i].id
  }

  /** The lookup: receipts of the workflow whose event ids are all among the given ones. */
  predicate Covered(r: Receipt, workflow: nat, ids: set<nat>) {
    r.group.workflow == workflow && Ids(r.events) <= ids
  }

  /** What the wake-up call selects: covered receipts of any group the request touches. */
  function Found(receipts: map<nat, Receipt>, request: seq<Submission>, answers: seq<Answer>): set<nat> {
    set r | r in receipts
         && exists i :: 0 <= i < |request|
              && Covered(receipts[r], request[i].payload.workflow, GroupIds(request, answers, GroupOfSubmission(request[i])))
  }

  predicate NoNewEvents(txn: Txn) {
    forall i :: 0 <= i < |txn.answers| ==> txn.answers[i].duplicate
  }

  /** Completed, running, or due at the moment of the wake-up. */
  predicate Resumed(r: Receipt, now: int) {
    r.status.Completed? || r.status.Running? || ((r.status.Queued? || r.status.RetryScheduled?) && r.nextAttemptAt == now)
  }

  /** A staged event answers one submission of its request, and that submission has its group. */
  lemma StagedHasSubmission(events: seq<Event>, txn: Txn, e: Event) returns (j: nat)
    requires TxnOk(events, txn) && e in txn.staged
    ensures j < |txn.request| && e.tenant == txn.request[j].tenant && e.clientId == txn.request[j].clientId
            && e.payload == txn.request[j].payload && GroupOf(e) == GroupOfSubmission(txn.request[j])
  {
    var i :| 0 <= i < |txn.staged| && txn.staged[i] == e;
    assert FromRequest(txn.staged[i], txn.request);
    j :| 0 <= j < |txn.request| && e.tenant == txn.request[j].tenant && e.clientId == txn.request[j].clientId
         && e.payload == txn.request[j].payload;
  }

  /** Client ids are unique, so an answer for that submission can only name that event. */
  lemma AnswerNamesIt(events: seq<Event>, txn: Txn, j: nat, e: Event)
    requires TxnOk(events, txn) && j < |txn.answers| && e in events
    requires e.tenant == txn.request[j].tenant && e.clientId == txn.request[j].clientId
    ensures txn.answers[j].id == e.id
  {
    var all := events + txn.staged;
    assert AnsweredIn(all, txn.request[j], txn.answers[j]);
    var a :| 0 <= a < |all| && Answered(all[a], txn.request[j], txn.answers[j]);
    var b :| 0 <= b < |events| && events[b] == e;
    assert all[b] == e;
    assert SameClient(all[a], all[b]);
  }

  predicate Known(events: seq<Event>, q: Submission) {
    exists i :: 0 <= i < |events| && events[i].tenant == q.tenant && events[i].clientId == q.clientId
  }

  /** When every submission's event is already committed, the retry inserts nothing. */
  lemma KnownRequestStagesNothing(events: seq<Event>, txn: Txn)
    requires TxnOk(events, txn)
    requires forall j :: 0 <= j < |txn.request| ==> Known(events, txn.request[j])
    ensures txn.staged == [] && NoNewEvents(txn)
  {
    if txn.staged != [] {
      var j := StagedHasSubmission(events, txn, txn.staged[0]);
      assert Known(events, txn.request[j]);
      var b :| 0 <= b < |events| && events[b].tenant == txn.request[j].tenant && events[b].clientId == txn.request[j].clientId;
      var all := events + txn.staged;
      assert all[|events|] == txn.staged[0] && SameClient(all[b], all[|events|]);
    }
  }

  /** A committed acceptance leaves an event for every submission of its request. */
  lemma CommittedRequestIsKnown(events: seq<Event>, txn: Txn, j: nat)
    requires TxnOk(events, txn) && |txn.answers| == |txn.request| && j < |txn.request|
    ensures Known(events + txn.staged, txn.request[j])
  {}

  lemma InvTxn(s: Sys, t: nat)
    requires Inv(s) && t in s.txns
    ensures TxnOk(s.db.events, s.txns[t])
  {}

  lemma ReceiptEvents(s: Sys, r: nat, e: Event)
    requires Inv(s) && r in s.db.receipts && e in s.db.receipts[r].events
    ensures e in s.db.events && GroupOf(e) == s.db.receipts[r].group
  {}

  lemma ReceiptNonempty(s: Sys, r: nat)
    requires Inv(s) && r in s.db.receipts
    ensures s.db.receipts[r].events != [] && s.db.receipts[r].attempts <= MAX_ATTEMPTS
  {}

  /** The acceptance that is being retried: it committed, creating the receipts `ids`. */
  predicate Committed(s: Sys, t: nat, ids: seq<nat>) {
    CanCommit(s, t) && !Oversize(s.txns[t].staged) && |ids| == |GroupKeys(s.txns[t].staged)| && UsableIds(s.db.receipts, ids)
  }

  lemma CreatedReceipt(s: Sys, t: nat, ids: seq<nat>, now: int, k: nat)
    requires Committed(s, t, ids) && k < |ids|
    ensures var r := Commit(s, t, ids, now).db.receipts; var g := GroupKeys(s.txns[t].staged)[k];
            ids[k] in r && r[ids[k]].group == g && r[ids[k]].events == Filter(s.txns[t].staged, g)
  {
    AddReceiptsLookup(s.db.receipts, ids, s.txns[t].staged, s.txns[t].config, now, |ids|);
  }

  lemma RequestStillKnown(s: Sys, t: nat, ids: seq<nat>, at: int, s': Sys, u: nat)
    requires Committed(s, t, ids) && TxnOk(s.db.events, s.txns[t])
    requires Commit(s, t, ids, at).db.events <= s'.db.events
    requires u in s'.txns && TxnOk(s'.db.events, s'.txns[u]) && s'.txns[u].request == s.txns[t].request
    ensures s'.txns[u].staged == [] && NoNewEvents(s'.txns[u])
  {
    var txn, txn' := s.txns[t], s'.txns[u];
    var all := s.db.events + txn.staged;
    forall j | 0 <= j < |txn'.request| ensures Known(s'.db.events, txn'.request[j]) {
      CommittedRequestIsKnown(s.db.events, txn, j);
      var i :| 0 <= i < |all| && all[i].tenant == txn.request[j].tenant && all[i].clientId == txn.request[j].clientId;
      assert s'.db.events[i] == all[i];
    }
    KnownRequestStagesNothing(s'.db.events, txn');
  }

  lemma ReachedBoth(steps: seq<Step>, t: nat, ids: seq<nat>, at: int, later: seq<Step>)
    ensures var s1 := Commit(Run(Empty, steps), t, ids, at);
            Inv(Run(Empty, steps)) && Inv(Run(s1, later))
            && s1.db.events <= Run(s1, later).db.events && WorkKept(s1.db.receipts, Run(s1, later).db.receipts)
  {
    hide Inv;
    ReachableInv(steps);
    CommitInv(Run(Empty, steps), t, ids, at);
    RunInv(Commit(Run(Empty, steps), t, ids, at), later);
    RunPersists(Commit(Run(Empty, steps), t, ids, at), later);
  }

  lemma WokenResumed(s: Sys, found: set<nat>, r: nat, now: int)
    requires r in found && r in s.db.receipts
    ensures r in Wake(s, found, true, now).db.receipts && Resumed(Wake(s, found, true, now).db.receipts[r], now)
  {}

  /**
   * After any further history, an acceptance of the same request inserts nothing, its lookup selects every
   * receipt the original created - even if that request mixed known and new events - and the wake-up leaves
   * each of them completed, running, or due now.
   */
  lemma ExactRetryResumesEveryReceipt(steps: seq<Step>, t: nat, ids: seq<nat>, at: int, later: seq<Step>, u: nat, now: int, k: nat)
    requires Committed(Run(Empty, steps), t, ids) && k < |ids|
    requires var s' := Run(Commit(Run(Empty, steps), t, ids, at), later);
             CanCommit(s', u) && s'.txns[u].request == Run(Empty, steps).txns[t].request
    ensures var s' := Run(Commit(Run(Empty, steps), t, ids, at), later);
            var found := Found(s'.db.receipts, s'.txns[u].request, s'.txns[u].answers);
            && s'.txns[u].staged == [] && NoNewEvents(s'.txns[u])
            && ids[k] in found && ids[k] in Wake(s', found, true, now).db.receipts
            && Resumed(Wake(s', found, true, now).db.receipts[ids[k]], now)
  {
    hide *;
    var s := Run(Empty, steps);
    var s' := Run(Commit(s, t, ids, at), later);
    ReachedBoth(steps, t, ids, at, later);
    RetryAgainst(s, t, ids, at, s', u, now, k);
  }

  lemma RetryAgainst(s: Sys, t: nat, ids: seq<nat>, at: int, s': Sys, u: nat, now: int, k: nat)
    requires Inv(s) && Inv(s') && Committed(s, t, ids) && k < |ids|
    requires var s1 := Commit(s, t, ids, at);
             s1.db.events <= s'.db.events && WorkKept(s1.db.receipts, s'.db.receipts)
    requires CanCommit(s', u) && s'.txns[u].request == s.txns[t].request
    ensures var found := Found(s'.db.receipts, s'.txns[u].request, s'.txns[u].answers);
            && s'.txns[u].staged == [] && NoNewEvents(s'.txns[u])
            && ids[k] in found && ids[k] in Wake(s', found, true, now).db.receipts
            && Resumed(Wake(s', found, true, now).db.receipts[ids[k]], now)
  {
    hide Inv;
    InvTxn(s, t);
    InvTxn(s', u);
    RequestStillKnown(s, t, ids, at, s', u);
    CreatedReceipt(s, t, ids, at, k);
    CoveredByRetry(s, t, s', u, ids[k], GroupKeys(s.txns[t].staged)[k]);
    WokenResumed(s', Found(s'.db.receipts, s'.txns[u].request, s'.txns[u].answers), ids[k], now);
  }

  lemma CoveredByRetry(s: Sys, t: nat, s': Sys, u: nat, r: nat, g: GroupKey)
    requires t in s.txns && u in s'.txns
    requires TxnOk(s.db.events, s.txns[t]) && TxnOk(s'.db.events, s'.txns[u])
    requires s'.txns[u].request == s.txns[t].request && |s'.txns[u].answers| == |s'.txns[u].request|
    requires Inv(s') && r in s'.db.receipts
    requires s'.db.receipts[r].group == g && s'.db.receipts[r].events == Filter(s.txns[t].staged, g)
    ensures r in Found(s'.db.receipts, s'.txns[u].request, s'.txns[u].answers)
  {
    hide Inv;
    var txn, txn' := s.txns[t], s'.txns[u];
    var es := s'.db.receipts[r].events;
    forall x | x in Ids(es) ensures x in GroupIds(txn'.request, txn'.answers, g) {
      var i := SharedId(es, x);
      FilterMember(txn.staged, g, es[i]);
      ReceiptEvents(s', r, es[i]);
      var j := StagedHasSubmission(s.db.events, txn, es[i]);
      AnswerNamesIt(s'.db.events, txn', j, es[i]);
    }
    ReceiptNonempty(s', r);
    FilterMember(txn.staged, g, es[0]);
    var j := StagedHasSubmission(s.db.events, txn, es[0]);
    assert Covered(s'.db.receipts[r], txn'.request[j].payload.workflow,
                   GroupIds(txn'.request, txn'.answers, GroupOfSubmission(txn'.request[j])));
  }

  /** Some submission of the workflow was answered with event x. */
  predicate Answers(request: seq<Submission>, answers: seq<Answer>, workflow: nat, x: nat) {
    exists j :: 0 <= j < |answers| && j < |request| && request[j].payload.workflow == workflow && answers[j].id == x
  }

  /** The lookup selects no receipt of another workflow and none with an event the request did not name. */
  lemma FoundIsCovered(receipts: map<nat, Receipt>, request: seq<Submission>, answers: seq<Answer>, r: nat)
    requires r in Found(receipts, request, answers)
    ensures r in receipts
    ensures exists i :: 0 <= i < |request| && request[i].payload.workflow == receipts[r].group.workflow
    ensures forall e :: e in receipts[r].events ==> Answers(request, answers, receipts[r].group.workflow, e.id)
  {
    var es := receipts[r].events;
    var i :| 0 <= i < |request|
             && Covered(receipts[r], request[i].payload.workflow, GroupIds(request, answers, GroupOfSubmission(request[i])));
    forall e | e in es ensures Answers(request, answers, receipts[r].group.workflow, e.id) {
      assert e.id in Ids(es);
      var j :| 0 <= j < |answers| && j < |request| && GroupOfSubmission(request[j]) == GroupOfSubmission(request[i])
               && answers[j].id == e.id;
    }
  }
}
