/**
 * Acceptance keeps every lane's log strictly ordered: fences are exclusive, staged events are later than
 * all visible ones of their lane, ids and client ids never repeat.
 */
module IngestLog {
  import opened Prelude
  import opened IngestPlane

  ghost predicate Ordered(es: seq<Event>) {
    forall i, j :: 0 <= i < j < |es| && LaneOf(es[i]) == LaneOf(es[j]) ==> es[i].at < es[j].at
  }

  predicate SameClient(a: Event, b: Event) { a.tenant == b.tenant && a.clientId == b.clientId }

  ghost predicate Distinct(es: seq<Event>) {
    forall i, j :: 0 <= i < j < |es| ==> es[i].id != es[j].id && !SameClient(es[i], es[j])
  }

  /** Two transactions' inserts: different lanes, different ids, different client ids. */
  ghost predicate Apart(a: seq<Event>, b: seq<Event>) {
    forall i, j :: 0 <= i < |a| && 0 <= j < |b| ==>
      LaneOf(a[i]) != LaneOf(b[j]) && a[i].id != b[j].id && !SameClient(a[i], b[j])
  }

  ghost predicate Good(es: seq<Event>) { Ordered(es) && Distinct(es) }

  /** What an answer promises about the event it names. */
  predicate Answered(e: Event, q: Submission, a: Answer) {
    e.tenant == q.tenant && e.clientId == q.clientId && e.payload == q.payload && e.id == a.id
  }

  ghost predicate AnsweredIn(es: seq<Event>, q: Submission, a: Answer) {
    exists i :: 0 <= i < |es| && Answered(es[i], q, a)
  }

  ghost predicate FromRequest(e: Event, request: seq<Submission>) {
    exists j :: 0 <= j < |request| && e.tenant == request[j].tenant && e.clientId == request[j].clientId
                && e.payload == request[j].payload
  }

  ghost predicate TxnOk(events: seq<Event>, txn: Txn) {
    && Good(events + txn.staged)
    && IsFencePlan(txn.fences, txn.request)
    && txn.held <= |txn.fences|
    && (forall i :: 0 <= i < |txn.staged| ==>
          LaneOf(txn.staged[i]) in Held(txn) && FromRequest(txn.staged[i], txn.request))
    && |txn.answers| <= |txn.request|
    && (forall i :: 0 <= i < |txn.answers| ==> AnsweredIn(events + txn.staged, txn.request[i], txn.answers[i]))
    && (forall i :: 0 <= i < |txn.answers| ==> txn.answers[i].duplicate || txn.answers[i].id in Ids(txn.staged))
  }

  ghost predicate Separate(a: Txn, b: Txn) {
    Held(a) !! Held(b) && Apart(a.staged, b.staged)
  }

  ghost predicate LogInv(events: seq<Event>, txns: map<nat, Txn>) {
    && Good(events)
    && (forall t :: t in txns ==> TxnOk(events, txns[t]))
    && (forall t, u :: t in txns && u in txns && t != u ==> Separate(txns[t], txns[u]))
  }

  lemma ReplaceTxn(events: seq<Event>, txns: map<nat, Txn>, t: nat, txn: Txn)
    requires LogInv(events, txns) && TxnOk(events, txn)
    requires forall u :: u in txns && u != t ==> Separate(txn, txns[u]) && Separate(txns[u], txn)
    ensures LogInv(events, txns[t := txn])
  {}

  lemma BeginKeeps(s: Sys, t: nat, request: seq<Submission>, config: map<nat, nat>, fences: seq<Lane>)
    requires LogInv(s.db.events, s.txns)
    ensures var s' := Begin(s, t, request, config, fences); LogInv(s'.db.events, s'.txns)
  {
    if t !in s.txns && IsFencePlan(fences, request) {
      hide IsFencePlan, Good, Separate;
      var txn := Txn(request, config, fences, 0, [], []);
      assert s.db.events + [] == s.db.events;
      FreshTxn(txn, s.txns);
      ReplaceTxn(s.db.events, s.txns, t, txn);
    }
  }

  /** A transaction that holds nothing and has staged nothing is apart from every other. */
  lemma FreshTxn(txn: Txn, txns: map<nat, Txn>)
    requires txn.held == 0 && txn.staged == []
    ensures forall u :: u in txns ==> Separate(txn, txns[u]) && Separate(txns[u], txn)
  {}

  function Fenced(txn: Txn): Txn { txn.(held := txn.held + 1) }

  lemma FencedOk(events: seq<Event>, txn: Txn)
    requires TxnOk(events, txn) && txn.held < |txn.fences|
    ensures TxnOk(events, Fenced(txn)) && Held(Fenced(txn)) == Held(txn) + {txn.fences[txn.held]}
  {
    assert Held(Fenced(txn)) == Held(txn) + {txn.fences[txn.held]};
    hide Good, IsFencePlan, FromRequest, AnsweredIn, Held;
  }

  lemma FenceKeeps(s: Sys, t: nat)
    requires LogInv(s.db.events, s.txns)
    ensures var s' := Fence(s, t); LogInv(s'.db.events, s'.txns)
  {
    var s' := Fence(s, t);
    if s' != s {
      var txn := s.txns[t];
      FencedOk(s.db.events, txn);
      hide Good, TxnOk, Apart, Held;
      forall u | u in s.txns && u != t ensures Separate(Fenced(txn), s.txns[u]) && Separate(s.txns[u], Fenced(txn)) {
        assert Separate(txn, s.txns[u]) && Separate(s.txns[u], txn);
      }
      ReplaceTxn(s.db.events, s.txns, t, Fenced(txn));
    }
  }

  /** The stamp rule puts the new event after everything the statement sees in its lane, whatever the clock. */
  lemma ExtendGood(visible: seq<Event>, e: Event, clock: int)
    requires Good(visible)
    requires e.at == NextAt(visible, LaneOf(e), clock)
    requires e.id !in Ids(visible)
    requires forall i :: 0 <= i < |visible| ==> !SameClient(visible[i], e)
    ensures Good(visible + [e])
    ensures forall i :: 0 <= i < |visible| && LaneOf(visible[i]) == LaneOf(e) ==> visible[i].at < e.at
  {}

  lemma StageKeeps(s: Sys, t: nat, clock: int, id: nat)
    requires LogInv(s.db.events, s.txns)
    ensures var s' := Stage(s, t, clock, id); LogInv(s'.db.events, s'.txns)
  {
    if CanStage(s, t) {
      var events, txn := s.db.events, s.txns[t];
      var q := txn.request[|txn.answers|];
      var visible := events + txn.staged;
      var r := FindClient(visible, q);
      if r.Some? {
        if visible[r.value].payload == q.payload {
          var txn' := txn.(answers := txn.answers + [Answer(visible[r.value].id, true)]);
          DuplicateAnswered(events, txn, txn', q);
          assert Held(txn') == Held(txn);
          ReplaceTxn(events, s.txns, t, txn');
        }
      } else if !ClientStagedElsewhere(s, t, q) && FreshId(s, id) {
        var e := Event(id, q.tenant, q.clientId, q.payload, NextAt(visible, LaneOfSubmission(q), clock));
        StageNew(s, t, clock, q, e);
      }
    }
  }

  lemma FreshForVisible(s: Sys, t: nat, id: nat)
    requires t in s.txns && FreshId(s, id)
    ensures id !in Ids(s.db.events + s.txns[t].staged)
  {
    var events, staged := s.db.events, s.txns[t].staged;
    var visible := events + staged;
    forall i | 0 <= i < |visible| ensures visible[i].id != id {
      if i < |events| {
        assert events[i].id in Ids(events);
      } else {
        assert staged[i - |events|].id in Ids(staged);
      }
    }
  }

  lemma StageNew(s: Sys, t: nat, clock: int, q: Submission, e: Event)
    requires LogInv(s.db.events, s.txns) && CanStage(s, t)
    requires q == s.txns[t].request[|s.txns[t].answers|]
    requires FindClient(s.db.events + s.txns[t].staged, q).None?
    requires !ClientStagedElsewhere(s, t, q) && FreshId(s, e.id)
    requires e == Event(e.id, q.tenant, q.clientId, q.payload,
                        NextAt(s.db.events + s.txns[t].staged, LaneOfSubmission(q), clock))
    ensures LogInv(s.db.events, s.txns[t := s.txns[t].(answers := s.txns[t].answers + [Answer(e.id, false)],
                                                       staged := s.txns[t].staged + [e])])
  {
    hide Ids, NextAt;
    var events, txn := s.db.events, s.txns[t];
    var txn' := txn.(answers := txn.answers + [Answer(e.id, false)], staged := txn.staged + [e]);
    var visible := events + txn.staged;
    assert events + txn'.staged == visible + [e];
    FreshForVisible(s, t, e.id);
    ExtendGood(visible, e, clock);
    FreshAnswered(events, txn, txn', q, e);
    assert Held(txn') == Held(txn);
    forall u | u in s.txns && u != t ensures Separate(txn', s.txns[u]) && Separate(s.txns[u], txn') {
      StagedApart(s, t, u, q, e);
    }
    ReplaceTxn(events, s.txns, t, txn');
  }

  lemma DuplicateAnswered(events: seq<Event>, txn: Txn, txn': Txn, q: Submission)
    requires TxnOk(events, txn) && |txn.answers| < |txn.request| && q == txn.request[|txn.answers|]
    requires FindClient(events + txn.staged, q).Some?
    requires var e := (events + txn.staged)[FindClient(events + txn.staged, q).value];
             e.payload == q.payload && txn' == txn.(answers := txn.answers + [Answer(e.id, true)])
    ensures TxnOk(events, txn')
  {
    var visible := events + txn.staged;
    var i := FindClient(visible, q).value;
    assert Answered(visible[i], q, txn'.answers[|txn.answers|]);
    assert Held(txn') == Held(txn);
  }

  lemma FreshAnswered(events: seq<Event>, txn: Txn, txn': Txn, q: Submission, e: Event)
    requires TxnOk(events, txn) && |txn.answers| < |txn.request| && q == txn.request[|txn.answers|]
    requires txn.held == |txn.fences|
    requires txn' == txn.(answers := txn.answers + [Answer(e.id, false)], staged := txn.staged + [e])
    requires e.tenant == q.tenant && e.clientId == q.clientId && e.payload == q.payload
    requires Good(events + txn'.staged)
    ensures TxnOk(events, txn')
    ensures LaneOf(e) in Held(txn)
  {
    hide Good, IsFencePlan, FromRequest, AnsweredIn, Held, Ids;
    var before, after := events + txn.staged, events + txn'.staged;
    assert after == before + [e];
    QuestionIsHeld(txn, txn', q, e);
    IdsSnoc(txn.staged, e);
    forall i | 0 <= i < |txn'.answers| ensures AnsweredIn(after, txn.request[i], txn'.answers[i]) {
      if i < |txn.answers| {
        AnsweredStays(before, e, txn.request[i], txn.answers[i]);
      } else {
        AnsweredLast(before, e, q);
      }
    }
  }

  lemma QuestionIsHeld(txn: Txn, txn': Txn, q: Submission, e: Event)
    requires IsFencePlan(txn.fences, txn.request) && q in txn.request && txn.held == |txn.fences|
    requires txn'.fences == txn.fences && txn'.held == txn.held
    requires e.tenant == q.tenant && e.clientId == q.clientId && e.payload == q.payload
    ensures Held(txn') == Held(txn) && LaneOf(e) in Held(txn) && FromRequest(e, txn.request)
  {}

  lemma IdsSnoc(es: seq<Event>, e: Event)
    ensures Ids(es + [e]) == Ids(es) + {e.id}
  {
    assert forall i :: 0 <= i < |es| ==> (es + [e])[i] == es[i];
    assert (es + [e])[|es|] == e;
  }

  lemma AnsweredStays(es: seq<Event>, e: Event, q: Submission, a: Answer)
    requires AnsweredIn(es, q, a)
    ensures AnsweredIn(es + [e], q, a)
  {
    var j :| 0 <= j < |es| && Answered(es[j], q, a);
    assert Answered((es + [e])[j], q, a);
  }

  lemma AnsweredLast(es: seq<Event>, e: Event, q: Submission)
    requires e.tenant == q.tenant && e.clientId == q.clientId && e.payload == q.payload
    ensures AnsweredIn(es + [e], q, Answer(e.id, false))
  {
    assert Answered((es + [e])[|es|], q, Answer(e.id, false));
  }

  lemma StagedApart(s: Sys, t: nat, u: nat, q: Submission, e: Event)
    requires LogInv(s.db.events, s.txns) && t in s.txns && u in s.txns && t != u
    requires LaneOf(e) in Held(s.txns[t]) && FreshId(s, e.id)
    requires e.tenant == q.tenant && e.clientId == q.clientId && !ClientStagedElsewhere(s, t, q)
    ensures Apart(s.txns[t].staged + [e], s.txns[u].staged)
    ensures Apart(s.txns[u].staged, s.txns[t].staged + [e])
  {
    var own, other := s.txns[t].staged, s.txns[u].staged;
    assert FindClient(other, q).None?;
    assert Separate(s.txns[t], s.txns[u]) && Separate(s.txns[u], s.txns[t]);
    assert TxnOk(s.db.events, s.txns[u]);
    assert Held(s.txns[t]) !! Held(s.txns[u]);
    forall j | 0 <= j < |other| ensures LaneOf(other[j]) != LaneOf(e) && other[j].id != e.id && !SameClient(other[j], e) {
      assert LaneOf(other[j]) in Held(s.txns[u]);
      assert other[j].id in Ids(other);
    }
    hide LogInv, TxnOk, FreshId, ClientStagedElsewhere, Separate;
    ApartSnoc(own, other, e);
  }

  lemma ApartSnoc(own: seq<Event>, other: seq<Event>, e: Event)
    requires Apart(own, other) && Apart(other, own)
    requires forall j :: 0 <= j < |other| ==> LaneOf(other[j]) != LaneOf(e) && other[j].id != e.id && !SameClient(other[j], e)
    ensures Apart(own + [e], other) && Apart(other, own + [e])
  {}

  /** Another transaction's commit extends what this one sees, but never in one of its own lanes. */
  lemma Splice(a: seq<Event>, b: seq<Event>, c: seq<Event>)
    requires Good(a + b) && Good(a + c) && Apart(b, c)
    ensures Good((a + b) + c)
  {
    var all := (a + b) + c;
    forall i, j | 0 <= i < j < |all|
      ensures LaneOf(all[i]) == LaneOf(all[j]) ==> all[i].at < all[j].at
      ensures all[i].id != all[j].id && !SameClient(all[i], all[j])
    {
      if j < |a + b| {
        assert all[i] == (a + b)[i] && all[j] == (a + b)[j];
      } else if i < |a| {
        assert all[i] == (a + c)[i] && all[j] == (a + c)[j - |b|];
      } else if i < |a + b| {
        assert all[i] == b[i - |a|] && all[j] == c[j - |a + b|];
      } else {
        assert all[i] == (a + c)[i - |b|] && all[j] == (a + c)[j - |b|];
      }
    }
  }

  lemma CommitSeen(events: seq<Event>, staged: seq<Event>, txn: Txn)
    requires TxnOk(events, txn) && Good(events + staged) && Apart(staged, txn.staged)
    ensures TxnOk(events + staged, txn)
  {
    Splice(events, staged, txn.staged);
    var before, after := events + txn.staged, (events + staged) + txn.staged;
    forall i | 0 <= i < |txn.answers| ensures AnsweredIn(after, txn.request[i], txn.answers[i]) {
      assert AnsweredIn(before, txn.request[i], txn.answers[i]);
      var j :| 0 <= j < |before| && Answered(before[j], txn.request[i], txn.answers[i]);
      var k := if j < |events| then j else j + |staged|;
      assert after[k] == before[j];
    }
  }

  lemma CommitKeeps(s: Sys, t: nat, ids: seq<nat>, now: int)
    requires LogInv(s.db.events, s.txns)
    ensures var s' := Commit(s, t, ids, now); LogInv(s'.db.events, s'.txns)
  {
    if CanCommit(s, t) { CommittedLog(s.db.events, s.txns, t); }
  }

  lemma CommittedLog(events: seq<Event>, txns: map<nat, Txn>, t: nat)
    requires LogInv(events, txns) && t in txns
    ensures LogInv(events, txns - {t}) && LogInv(events + txns[t].staged, txns - {t})
  {
    var staged := txns[t].staged;
    assert TxnOk(events, txns[t]);
    forall u | u in txns && u != t ensures TxnOk(events + staged, txns[u]) {
      assert Separate(txns[t], txns[u]);
      CommitSeen(events, staged, txns[u]);
    }
    hide Good, Separate, TxnOk;
  }

  // ---- Deadlock freedom ---------------------------------------------------------------------

  predicate Waits(txns: map<nat, Txn>, t: nat) {
    t in txns && txns[t].held < |txns[t].fences|
  }

  function Wanted(txns: map<nat, Txn>, t: nat): Lane
    requires Waits(txns, t)
  {
    txns[t].fences[txns[t].held]
  }

  lemma {:induction false} GreatestWaiter(txns: map<nat, Txn>, waiting: set<nat>, first: nat) returns (t: nat)
    requires first in waiting && forall u :: u in waiting ==> Waits(txns, u)
    ensures t in waiting && forall u :: u in waiting ==> !LaneBefore(Wanted(txns, t), Wanted(txns, u))
    decreases waiting
  {
    t := first;
    var rest := waiting - {first};
    assert waiting == rest + {first};
    if next :| next in rest {
      var m := GreatestWaiter(txns, rest, next);
      if !LaneBefore(Wanted(txns, m), Wanted(txns, first)) { t := m; }
    }
  }

  /** A holder of the wanted fence wants, if anything, a fence that sorts later. */
  lemma HolderWantsLater(events: seq<Event>, txns: map<nat, Txn>, lane: Lane, u: nat)
    requires LogInv(events, txns) && Waits(txns, u) && lane in Held(txns[u])
    ensures LaneBefore(lane, Wanted(txns, u))
  {}

  /** Whenever acceptances are open, one of them holds all its fences or can take the next at once. */
  lemma SomeAcceptorIsNotBlocked(s: Sys)
    requires LogInv(s.db.events, s.txns) && s.txns != map[]
    ensures exists t :: t in s.txns
              && (Waits(s.txns, t) ==> FenceFree(s.txns, t, Wanted(s.txns, t)))
  {
    var waiting := set t | t in s.txns && Waits(s.txns, t);
    if t :| t in s.txns && !Waits(s.txns, t) {
    } else {
      var first :| first in s.txns.Keys;
      var t := GreatestWaiter(s.txns, waiting, first);
      var lane := Wanted(s.txns, t);
      if u :| u in s.txns && u != t && lane in Held(s.txns[u]) {
        HolderWantsLater(s.db.events, s.txns, lane, u);
      }
    }
  }
}
