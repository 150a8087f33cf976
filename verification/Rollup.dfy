/** Per-tenant rollups of a batch (pipeline.rs), and how the API merges those of its groups (ingest.py). */
module Rollup {
  import opened Prelude

  /** The part of a sealed event the rollup reads; lengths are unbounded here. */
  datatype Sealed = Sealed(tenant: nat, cipherLen: int)

  datatype Slot = Slot(count: nat, bytes: int, maxCipherLen: int)

  type Summary = map<nat, Slot>

  function Zero(): Slot { Slot(0, 0, 0) }

  function Lookup(m: Summary, t: nat): Slot { if t in m then m[t] else Zero() }

  function Plus(a: Slot, b: Slot): Slot {
    Slot(a.count + b.count, a.bytes + b.bytes, Max(a.maxCipherLen, b.maxCipherLen))
  }

  function SlotOf(e: Sealed): Slot { Slot(1, e.cipherLen, Max(0, e.cipherLen)) }

  function Add(m: Summary, t: nat, s: Slot): Summary { m[t := Plus(Lookup(m, t), s)] }

  function Rollup(events: seq<Sealed>): Summary {
    if events == [] then map[]
    else Add(Rollup(events[..|events| - 1]), events[|events| - 1].tenant, SlotOf(events[|events| - 1]))
  }

  method ComputeRollup(events: seq<Sealed>) returns (byTenant: Summary)
    ensures byTenant == Rollup(events)
  {
    byTenant := map[];
    for i := 0 to |events|
      invariant byTenant == Rollup(events[..i])
    {
      RollupSnoc(events[..i], events[i]);
      assert events[..i + 1] == events[..i] + [events[i]];
      var e := events[i];
      var slot := if e.tenant in byTenant then byTenant[e.tenant] else Slot(0, 0, 0);
      slot := slot.(count := slot.count + 1);
      slot := slot.(bytes := slot.bytes + e.cipherLen);
      slot := slot.(maxCipherLen := if slot.maxCipherLen <= e.cipherLen then e.cipherLen else slot.maxCipherLen);
      RollupFloor(events[..i], e.tenant);
      byTenant := byTenant[e.tenant := slot];
    }
    assert events[..|events|] == events;
  }

  lemma RollupSnoc(events: seq<Sealed>, e: Sealed)
    ensures Rollup(events + [e]) == Add(Rollup(events), e.tenant, SlotOf(e))
  {}

  /** The running maximum starts at zero. */
  lemma {:induction false} RollupFloor(events: seq<Sealed>, t: nat)
    ensures Lookup(Rollup(events), t).maxCipherLen >= 0
  {
    if events != [] { RollupFloor(events[..|events| - 1], t); }
  }

  // ---- What a slot says ---------------------------------------------------------------------

  function ForTenant(events: seq<Sealed>, t: nat): seq<Sealed> {
    if events == [] then []
    else ForTenant(events[..|events| - 1], t) + if events[|events| - 1].tenant == t then [events[|events| - 1]] else []
  }

  /** The greatest length among the events, or zero if none is longer. */
  predicate IsLongest(events: seq<Sealed>, n: int) {
    && n >= 0 && (forall i :: 0 <= i < |events| ==> events[i].cipherLen <= n)
    && (n == 0 || exists i :: 0 <= i < |events| && events[i].cipherLen == n)
  }

  lemma LongestSnoc(events: seq<Sealed>, n: int, e: Sealed)
    requires IsLongest(events, n)
    ensures IsLongest(events + [e], if e.cipherLen > n then e.cipherLen else n)
  {
    var all := events + [e];
    assert all[|events|] == e && forall i :: 0 <= i < |events| ==> all[i] == events[i];
  }

  lemma BytesSnoc(events: seq<Sealed>, e: Sealed)
    ensures Bytes(events + [e]) == Bytes(events) + e.cipherLen
  {
    assert (events + [e])[..|events|] == events;
  }

  /** A tenant's slot counts its events, adds up their bytes, and gives the length of the longest. */
  lemma {:induction false} SlotSays(events: seq<Sealed>, t: nat)
    ensures var own := ForTenant(events, t); var slot := Lookup(Rollup(events), t);
            slot.count == |own| && slot.bytes == Bytes(own) && IsLongest(own, slot.maxCipherLen)
  {
    hide IsLongest, Bytes;
    if events == [] {
      NothingSays();
    } else {
      var n := |events| - 1;
      SlotSays(events[..n], t);
      LongestSnoc(ForTenant(events[..n], t), Lookup(Rollup(events[..n]), t).maxCipherLen, events[n]);
      BytesSnoc(ForTenant(events[..n], t), events[n]);
      assert ForTenant(events[..n], t) + [] == ForTenant(events[..n], t);
      RollupFloor(events[..n], t);
    }
  }

  lemma NothingSays()
    ensures Bytes([]) == 0 && IsLongest([], 0)
  {}

  // ---- Merging ------------------------------------------------------------------------------

  /** Slot by slot, over the tenants of either side. */
  function Merge(a: Summary, b: Summary): Summary {
    map t | t in a.Keys + b.Keys :: Plus(Lookup(a, t), Lookup(b, t))
  }

  /** No slot is below the starting maximum, so an absent tenant and an empty slot read the same. */
  predicate Floored(m: Summary) { forall t :: t in m ==> m[t].maxCipherLen >= 0 }

  lemma {:induction false} RollupFloored(events: seq<Sealed>)
    ensures Floored(Rollup(events))
  {
    if events != [] {
      RollupFloored(events[..|events| - 1]);
      RollupFloor(events[..|events| - 1], events[|events| - 1].tenant);
    }
  }

  lemma MergeCommutes(a: Summary, b: Summary)
    ensures Merge(a, b) == Merge(b, a)
  {}

  lemma MergeLookup(a: Summary, b: Summary, t: nat)
    ensures Lookup(Merge(a, b), t) == Plus(Lookup(a, t), Lookup(b, t))
    ensures Merge(a, b).Keys == a.Keys + b.Keys
  {}

  lemma PlusAssociates(a: Slot, b: Slot, c: Slot)
    ensures Plus(Plus(a, b), c) == Plus(a, Plus(b, c))
  {}

  /** Summaries are equal when their tenants and slots are. */
  lemma SameSummary(l: Summary, r: Summary)
    requires l.Keys == r.Keys && forall t :: t in l ==> Lookup(l, t) == Lookup(r, t)
    ensures l == r
  {}

  lemma MergeAssociates(a: Summary, b: Summary, c: Summary)
    ensures Merge(Merge(a, b), c) == Merge(a, Merge(b, c))
  {
    hide Plus, Lookup, Merge;
    var l, r := Merge(Merge(a, b), c), Merge(a, Merge(b, c));
    MergeLookup(a, b, 0);
    MergeLookup(b, c, 0);
    MergeLookup(Merge(a, b), c, 0);
    MergeLookup(a, Merge(b, c), 0);
    assert l.Keys == r.Keys;
    forall t | t in l ensures Lookup(l, t) == Lookup(r, t) {
      MergeLookup(a, b, t);
      MergeLookup(b, c, t);
      MergeLookup(Merge(a, b), c, t);
      MergeLookup(a, Merge(b, c), t);
      PlusAssociates(Lookup(a, t), Lookup(b, t), Lookup(c, t));
    }
    SameSummary(l, r);
  }

  lemma MergeNothing(a: Summary)
    requires Floored(a)
    ensures Merge(a, map[]) == a
  {}

  lemma MergeAdd(a: Summary, b: Summary, t: nat, s: Slot)
    requires Floored(a) && Floored(b) && s.maxCipherLen >= 0
    ensures Merge(a, Add(b, t, s)) == Add(Merge(a, b), t, s)
  {
    assert Merge(a, Add(b, t, s)).Keys == Add(Merge(a, b), t, s).Keys;
  }

  /** Rolling up a concatenation is merging the rollups. */
  lemma {:induction false} RollupIsHomomorphism(a: seq<Sealed>, b: seq<Sealed>)
    ensures Rollup(a + b) == Merge(Rollup(a), Rollup(b))
  {
    RollupFloored(a);
    RollupFloored(b);
    if b == [] {
      assert a + b == a;
      MergeNothing(Rollup(a));
    } else {
      var n := |b| - 1;
      RollupIsHomomorphism(a, b[..n]);
      RollupFloored(b[..n]);
      RollupSnoc(a + b[..n], b[n]);
      assert a + b == a + b[..n] + [b[n]];
      MergeAdd(Rollup(a), Rollup(b[..n]), b[n].tenant, SlotOf(b[n]));
    }
  }

  lemma SwapParts(a: seq<Sealed>, b: seq<Sealed>)
    ensures Rollup(a + b) == Rollup(b + a)
  {
    RollupIsHomomorphism(a, b);
    RollupIsHomomorphism(b, a);
    MergeCommutes(Rollup(a), Rollup(b));
  }

  /** Moving one event to the front changes nothing. */
  lemma ToFront(left: seq<Sealed>, e: Sealed, right: seq<Sealed>)
    ensures Rollup(left + ([e] + right)) == Rollup([e] + (left + right))
  {
    SwapParts(left, [e] + right);
    assert ([e] + right) + left == [e] + (right + left);
    RollupIsHomomorphism([e], right + left);
    SwapParts(right, left);
    RollupIsHomomorphism([e], left + right);
  }

  lemma TakeOut(a: seq<Sealed>, b: seq<Sealed>) returns (i: nat)
    requires a != [] && multiset(a) == multiset(b)
    ensures i < |b| && b[i] == a[0] && multiset(a[1..]) == multiset(b[..i] + b[i + 1..])
  {
    var e := a[0];
    assert a == [e] + a[1..];
    assert e in multiset(b);
    i :| 0 <= i < |b| && b[i] == e;
    assert b == b[..i] + ([e] + b[i + 1..]);
    assert multiset(a[1..]) == multiset(a) - multiset{e};
    assert multiset(b[..i] + b[i + 1..]) == multiset(b) - multiset{e};
  }

  /** The order of a batch does not matter. */
  lemma {:induction false} OrderIsIrrelevant(a: seq<Sealed>, b: seq<Sealed>)
    requires multiset(a) == multiset(b)
    ensures Rollup(a) == Rollup(b)
    decreases |a|
  {
    if a == [] {
      assert |multiset(b)| == |b|;
    } else {
      hide Rollup;
      var i := TakeOut(a, b);
      var rest := b[..i] + b[i + 1..];
      assert a == [a[0]] + a[1..] && b == b[..i] + ([a[0]] + b[i + 1..]);
      OrderIsIrrelevant(a[1..], rest);
      RollupIsHomomorphism([a[0]], a[1..]);
      RollupIsHomomorphism([a[0]], rest);
      ToFront(b[..i], a[0], b[i + 1..]);
    }
  }

  // ---- Partitions ---------------------------------------------------------------------------

  function Flatten(groups: seq<seq<Sealed>>): seq<Sealed> {
    if groups == [] then [] else Flatten(groups[..|groups| - 1]) + groups[|groups| - 1]
  }

  /** What a processed group reports back. */
  datatype Pathway = Pathway(count: nat, anomalies: nat, byTenant: Summary)

  function MergeAll(summaries: seq<Summary>): Summary {
    if summaries == [] then map[] else Merge(MergeAll(summaries[..|summaries| - 1]), summaries[|summaries| - 1])
  }

  function Summaries(outcomes: seq<Pathway>): seq<Summary> {
    seq(|outcomes|, i requires 0 <= i < |outcomes| => outcomes[i].byTenant)
  }

  function CountAll(outcomes: seq<Pathway>): nat {
    if outcomes == [] then 0 else CountAll(outcomes[..|outcomes| - 1]) + outcomes[|outcomes| - 1].count
  }

  function AnomaliesAll(outcomes: seq<Pathway>): nat {
    if outcomes == [] then 0 else AnomaliesAll(outcomes[..|outcomes| - 1]) + outcomes[|outcomes| - 1].anomalies
  }

  lemma {:induction false} TotalsOfBoth(a: seq<Pathway>, b: seq<Pathway>)
    ensures CountAll(a + b) == CountAll(a) + CountAll(b) && AnomaliesAll(a + b) == AnomaliesAll(a) + AnomaliesAll(b)
  {
    if b == [] {
      assert a + b == a;
    } else {
      var n := |b| - 1;
      TotalsOfBoth(a, b[..n]);
      assert (a + b)[..|a + b| - 1] == a + b[..n];
    }
  }

  /** The totals are those of the groups, added up. */
  lemma TotalsOfOne(p: Pathway)
    ensures CountAll([p]) == p.count && AnomaliesAll([p]) == p.anomalies
  {
    assert [p][..0] == [];
  }

  /** The response's summary, slot by slot, as the acceptance handler accumulates it. */
  method MergePathways(outcomes: seq<Pathway>) returns (summary: Pathway, tenants: nat)
    requires forall i :: 0 <= i < |outcomes| ==> Floored(outcomes[i].byTenant)
    ensures summary.byTenant == MergeAll(Summaries(outcomes))
    ensures summary.count == CountAll(outcomes) && summary.anomalies == AnomaliesAll(outcomes)
    ensures tenants == |summary.byTenant|
  {
    var byTenant: Summary := map[];
    var count, anomalies := 0, 0;
    for i := 0 to |outcomes|
      invariant byTenant == MergeAll(Summaries(outcomes)[..i]) && Floored(byTenant)
      invariant count == CountAll(outcomes[..i]) && anomalies == AnomaliesAll(outcomes[..i])
    {
      assert outcomes[..i + 1][..i] == outcomes[..i];
      assert Summaries(outcomes)[..i + 1][..i] == Summaries(outcomes)[..i];
      var pathway := outcomes[i];
      count := count + pathway.count;
      anomalies := anomalies + pathway.anomalies;
      byTenant := MergeInto(byTenant, pathway.byTenant);
    }
    assert outcomes[..|outcomes|] == outcomes;
    assert Summaries(outcomes)[..|outcomes|] == Summaries(outcomes);
    return Pathway(count, anomalies, byTenant), |byTenant|;
  }

  /** The part of a merge done so far: the tenants of `done` have been added. */
  predicate Merged(acc: Summary, more: Summary, done: set<nat>, r: Summary) {
    r.Keys == acc.Keys + done && forall t :: t in r ==> r[t] == if t in done then Plus(Lookup(acc, t), Lookup(more, t)) else acc[t]
  }

  lemma MergedNone(acc: Summary, more: Summary)
    ensures Merged(acc, more, {}, acc)
  {}

  lemma MergeStep(acc: Summary, more: Summary, done: set<nat>, r: Summary, t: nat)
    requires Merged(acc, more, done, r) && t in more && t !in done
    ensures Merged(acc, more, done + {t}, r[t := Plus(Lookup(r, t), more[t])])
  {}

  lemma MergedAll(acc: Summary, more: Summary, r: Summary)
    requires Merged(acc, more, more.Keys, r) && Floored(acc) && Floored(more)
    ensures r == Merge(acc, more) && Floored(r)
  {}

  method MergeInto(acc: Summary, more: Summary) returns (r: Summary)
    requires Floored(acc) && Floored(more)
    ensures r == Merge(acc, more) && Floored(r)
  {
    r := acc;
    MergedNone(acc, more);
    hide Merged, Lookup, Merge;
    var todo := more.Keys;
    assert more.Keys - todo == {};
    while todo != {}
      invariant todo <= more.Keys
      invariant Merged(acc, more, more.Keys - todo, r)
      decreases |todo|
    {
      var t :| t in todo;
      MergeStep(acc, more, more.Keys - todo, r, t);
      assert more.Keys - (todo - {t}) == more.Keys - todo + {t};
      todo := todo - {t};
      var slot := Lookup(r, t);
      var stats := more[t];
      r := r[t := Plus(slot, stats)];
    }
    assert more.Keys - todo == more.Keys;
    MergedAll(acc, more, r);
  }

  lemma {:induction false} MergeAllOfRollups(groups: seq<seq<Sealed>>, summaries: seq<Summary>)
    requires |summaries| == |groups| && forall i :: 0 <= i < |groups| ==> summaries[i] == Rollup(groups[i])
    ensures MergeAll(summaries) == Rollup(Flatten(groups))
  {
    if groups != [] {
      var n := |groups| - 1;
      MergeAllOfRollups(groups[..n], summaries[..n]);
      RollupIsHomomorphism(Flatten(groups[..n]), groups[n]);
    }
  }

  /** However a batch is split into groups, and in whatever order they finish, the merge is the rollup of the whole. */
  lemma MergeOfAnyPartition(batch: seq<Sealed>, groups: seq<seq<Sealed>>, summaries: seq<Summary>)
    requires multiset(Flatten(groups)) == multiset(batch)
    requires |summaries| == |groups| && forall i :: 0 <= i < |groups| ==> summaries[i] == Rollup(groups[i])
    ensures MergeAll(summaries) == Rollup(batch)
  {
    MergeAllOfRollups(groups, summaries);
    OrderIsIrrelevant(Flatten(groups), batch);
  }

  // ---- Conservation -------------------------------------------------------------------------

  function Bytes(events: seq<Sealed>): int {
    if events == [] then 0 else Bytes(events[..|events| - 1]) + events[|events| - 1].cipherLen
  }

  ghost function Totals(m: Summary): (nat, int)
    decreases |m|
  {
    if m == map[] then (0, 0)
    else
      var t :| t in m;
      var rest := Totals(m - {t});
      (rest.0 + m[t].count, rest.1 + m[t].bytes)
  }

  /** The totals do not depend on the order in which tenants are added up. */
  lemma {:induction false} TotalsWithout(m: Summary, t: nat)
    requires t in m
    ensures Totals(m) == (Totals(m - {t}).0 + m[t].count, Totals(m - {t}).1 + m[t].bytes)
    decreases |m|
  {
    var u :| u in m && Totals(m) == (Totals(m - {u}).0 + m[u].count, Totals(m - {u}).1 + m[u].bytes);
    if u != t {
      TotalsWithout(m - {u}, t);
      TotalsWithout(m - {t}, u);
      assert m - {u} - {t} == m - {t} - {u};
    }
  }

  lemma TotalsAdd(m: Summary, t: nat, s: Slot)
    ensures Totals(Add(m, t, s)) == (Totals(m).0 + s.count, Totals(m).1 + s.bytes)
  {
    hide Totals;
    var m' := Add(m, t, s);
    TotalsWithout(m', t);
    assert m' - {t} == m - {t};
    if t in m {
      TotalsWithout(m, t);
    } else {
      assert m - {t} == m;
    }
  }

  /** Every event and every byte of the batch is counted for exactly one tenant. */
  lemma {:induction false} RollupConserves(events: seq<Sealed>)
    ensures Totals(Rollup(events)) == (|events|, Bytes(events))
  {
    hide Add, Totals;
    if events == [] {
      NoTotals();
    } else {
      var n := |events| - 1;
      RollupConserves(events[..n]);
      TotalsAdd(Rollup(events[..n]), events[n].tenant, SlotOf(events[n]));
    }
  }

  lemma NoTotals()
    ensures Totals(map[]) == (0, 0)
  {}

  /** Exactly the tenants of the batch appear. */
  lemma {:induction false} RollupTenants(events: seq<Sealed>, t: nat)
    ensures t in Rollup(events) <==> exists i :: 0 <= i < |events| && events[i].tenant == t
  {
    hide Plus, Lookup;
    if events != [] {
      var n := |events| - 1;
      RollupTenants(events[..n], t);
      assert forall i :: 0 <= i < n ==> events[..n][i] == events[i];
    }
  }
}
