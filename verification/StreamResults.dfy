/** The stream_results table and its idempotent upsert (projections.py). */
module StreamResults {
  import opened Prelude

  /** One row as a processor emits it; an empty string or None stands for a missing value. */
  datatype Row = Row(
    tenant: Option<nat>, source: Option<nat>, kind: string,
    featureDetector: string, metaDetector: string,
    featureRule: string, metaRule: string, rowRule: string,
    workflow: nat, projection: nat, payload: nat)

  /** The fields hashed into projection_result_key; the hash itself is taken to be injective. */
  datatype Identity =
    | Source(event: nat, detector: string, rule: string)
    | Aggregate(events: set<nat>, kind: string)
    | Unkeyed(kind: string, content: nat)

  /** The unique index (tenant_id, projection_name, projection_version, projection_result_key). */
  datatype ResultKey = ResultKey(tenant: nat, projection: nat, version: nat, workflow: nat, identity: Identity)

  /** What the ON CONFLICT branch overwrites. */
  datatype Stored = Stored(source: Option<nat>, kind: string, payload: nat, workflow: nat)

  type Table = map<ResultKey, Stored>

  /** What one call binds: the accepted tenants and events (empty means unchecked) and the aggregate input. */
  datatype Scope = Scope(version: nat, tenants: set<nat>, events: set<nat>, aggregate: set<nat>)

  datatype Outcome = Written(table: Table) | ForeignTenant | ForeignEvent

  function FirstNonEmpty(a: string, b: string): string { if a != "" then a else b }

  function Detector(row: Row): string {
    FirstNonEmpty(row.featureDetector, FirstNonEmpty(row.metaDetector, FirstNonEmpty(row.kind, "transform")))
  }

  function Rule(row: Row): string {
    FirstNonEmpty(row.featureRule, FirstNonEmpty(row.metaRule, row.rowRule))
  }

  function IdentityOf(row: Row, aggregate: set<nat>): Identity {
    if row.source.Some? then Source(row.source.value, Detector(row), Rule(row))
    else if aggregate != {} then Aggregate(aggregate, FirstNonEmpty(row.kind, "rollup"))
    else Unkeyed(FirstNonEmpty(row.kind, "rollup"), row.payload)
  }

  function KeyOf(row: Row, scope: Scope): ResultKey
    requires row.tenant.Some?
  {
    ResultKey(row.tenant.value, row.projection, scope.version, row.workflow, IdentityOf(row, scope.aggregate))
  }

  function StoredOf(row: Row): Stored {
    Stored(row.source, if row.kind != "" then row.kind else if row.source.Some? then "transform" else "rollup",
           row.payload, row.workflow)
  }

  /** A row without a tenant is skipped, whatever else it names. */
  predicate Skipped(row: Row) { row.tenant.None? }

  predicate TenantAllowed(row: Row, scope: Scope) {
    row.tenant.Some? ==> scope.tenants == {} || row.tenant.value in scope.tenants
  }

  predicate EventAllowed(row: Row, scope: Scope) {
    row.tenant.Some? && row.source.Some? ==> scope.events == {} || row.source.value in scope.events
  }

  predicate InScope(rows: seq<Row>, scope: Scope) {
    forall i :: 0 <= i < |rows| ==> TenantAllowed(rows[i], scope) && EventAllowed(rows[i], scope)
  }

  function Put(t: Table, row: Row, scope: Scope): Table {
    if Skipped(row) then t else t[KeyOf(row, scope) := StoredOf(row)]
  }

  /** The table after the row-by-row upsert. */
  function Apply(t: Table, rows: seq<Row>, scope: Scope): Table
    decreases |rows|
  {
    if rows == [] then t else Put(Apply(t, rows[..|rows| - 1], scope), rows[|rows| - 1], scope)
  }

  function Keys(rows: seq<Row>, scope: Scope): set<ResultKey> {
    set i | 0 <= i < |rows| && !Skipped(rows[i]) :: KeyOf(rows[i], scope)
  }

  // ---- What a batch leaves behind -----------------------------------------------------------

  /** The stored value says what the row said, with the kind that stands for a missing one. */
  predicate Says(v: Stored, row: Row) {
    && v.source == row.source && v.payload == row.payload && v.workflow == row.workflow
    && (row.kind != "" ==> v.kind == row.kind)
    && (row.kind == "" ==> v.kind == if row.source.Some? then "transform" else "rollup")
  }

  /** Row i has a tenant, and no later row of the batch has its key. */
  predicate IsLast(rows: seq<Row>, scope: Scope, i: nat) {
    && i < |rows| && rows[i].tenant.Some?
    && forall j :: i < j < |rows| && rows[j].tenant.Some? ==> KeyOf(rows[j], scope) != KeyOf(rows[i], scope)
  }

  predicate Names(rows: seq<Row>, scope: Scope, k: ResultKey) {
    exists i :: 0 <= i < |rows| && rows[i].tenant.Some? && KeyOf(rows[i], scope) == k
  }

  /** t' is t with the last row of every key of the batch, and nothing else, written into it. */
  ghost predicate Wrote(t: Table, t': Table, rows: seq<Row>, scope: Scope) {
    && (forall i: nat :: IsLast(rows, scope, i) ==> KeyOf(rows[i], scope) in t' && Says(t'[KeyOf(rows[i], scope)], rows[i]))
    && (forall k :: !Names(rows, scope, k) ==> (k in t' <==> k in t) && (k in t ==> t'[k] == t[k]))
  }

  /** Either the whole batch is written or nothing is: validation precedes the first write. */
  method UpsertStreamResults(t: Table, rows: seq<Row>, scope: Scope) returns (out: Outcome)
    ensures out.Written? <==> InScope(rows, scope)
    ensures out.Written? ==> out.table == Apply(t, rows, scope) && Wrote(t, out.table, rows, scope)
    ensures out.Written? ==>
              forall i :: 0 <= i < |rows| && rows[i].tenant.Some? ==>
                && (scope.tenants == {} || rows[i].tenant.value in scope.tenants)
                && (rows[i].source.Some? ==> scope.events == {} || rows[i].source.value in scope.events)
    ensures out.ForeignTenant? ==> exists i :: 0 <= i < |rows| && !TenantAllowed(rows[i], scope)
    ensures out.ForeignEvent? ==> exists i :: 0 <= i < |rows| && !EventAllowed(rows[i], scope)
  {
    var prepared: seq<(ResultKey, Stored)> := [];
    for i := 0 to |rows|
      invariant forall j :: 0 <= j < i ==> TenantAllowed(rows[j], scope) && EventAllowed(rows[j], scope)
      invariant PutAll(t, prepared) == Apply(t, rows[..i], scope)
    {
      var row := rows[i];
      assert rows[..i + 1][..i] == rows[..i];
      if row.tenant.Some? {
        if scope.tenants != {} && row.tenant.value !in scope.tenants {
          return ForeignTenant;
        }
        if row.source.Some? && scope.events != {} && row.source.value !in scope.events {
          return ForeignEvent;
        }
        prepared := prepared + [(KeyOf(row, scope), StoredOf(row))];
      }
    }
    assert rows[..|rows|] == rows;
    var table := t;
    for i := 0 to |prepared|
      invariant table == PutAll(t, prepared[..i])
    {
      assert prepared[..i + 1][..i] == prepared[..i];
      table := table[prepared[i].0 := prepared[i].1];
    }
    assert prepared[..|prepared|] == prepared;
    ApplyWrites(t, rows, scope);
    return Written(table);
  }

  ghost function PutAll(t: Table, writes: seq<(ResultKey, Stored)>): Table {
    if writes == [] then t
    else PutAll(t, writes[..|writes| - 1])[writes[|writes| - 1].0 := writes[|writes| - 1].1]
  }

  // ---- Exactly-once results from at-least-once execution -------------------------------------

  /** The value the last row with key k leaves behind. */
  function Final(rows: seq<Row>, scope: Scope, k: ResultKey): Stored
    requires k in Keys(rows, scope)
  {
    var last := |rows| - 1;
    if !Skipped(rows[last]) && KeyOf(rows[last], scope) == k then StoredOf(rows[last])
    else Final(rows[..last], scope, k)
  }

  /** Per key, a batch overwrites with a value of its own or leaves the table alone. */
  lemma {:induction false} ApplyLookup(t: Table, rows: seq<Row>, scope: Scope, k: ResultKey)
    ensures k in Apply(t, rows, scope) <==> k in t || k in Keys(rows, scope)
    ensures k in Keys(rows, scope) ==> Apply(t, rows, scope)[k] == Final(rows, scope, k)
    ensures k !in Keys(rows, scope) && k in t ==> Apply(t, rows, scope)[k] == t[k]
  {
    if rows != [] {
      var last := |rows| - 1;
      ApplyLookup(t, rows[..last], scope, k);
      assert Keys(rows, scope) == Keys(rows[..last], scope)
                                  + if Skipped(rows[last]) then {} else {KeyOf(rows[last], scope)};
    }
  }

  lemma {:induction false} FinalOfLast(rows: seq<Row>, scope: Scope, i: nat)
    requires IsLast(rows, scope, i)
    ensures KeyOf(rows[i], scope) in Keys(rows, scope) && Final(rows, scope, KeyOf(rows[i], scope)) == StoredOf(rows[i])
  {
    var last := |rows| - 1;
    if i < last {
      assert rows[..last][i] == rows[i];
      FinalOfLast(rows[..last], scope, i);
    }
  }

  lemma ApplyWrites(t: Table, rows: seq<Row>, scope: Scope)
    ensures Wrote(t, Apply(t, rows, scope), rows, scope)
  {
    forall i: nat | IsLast(rows, scope, i)
      ensures KeyOf(rows[i], scope) in Apply(t, rows, scope) && Says(Apply(t, rows, scope)[KeyOf(rows[i], scope)], rows[i])
    {
      FinalOfLast(rows, scope, i);
      ApplyLookup(t, rows, scope, KeyOf(rows[i], scope));
    }
    forall k | !Names(rows, scope, k)
      ensures (k in Apply(t, rows, scope) <==> k in t) && (k in t ==> Apply(t, rows, scope)[k] == t[k])
    {
      ApplyLookup(t, rows, scope, k);
    }
  }

  datatype Batch = Batch(rows: seq<Row>, scope: Scope)

  predicate Disjoint(batches: seq<Batch>) {
    forall i, j :: 0 <= i < j < |batches| ==>
      Keys(batches[i].rows, batches[i].scope) !! Keys(batches[j].rows, batches[j].scope)
  }

  predicate ChoosesFrom(history: seq<nat>, batches: seq<Batch>) {
    forall j :: 0 <= j < |history| ==> history[j] < |batches|
  }

  /** Executing the batches named by a history, which may repeat a batch and in any order. */
  function Replay(t: Table, batches: seq<Batch>, history: seq<nat>): Table
    requires ChoosesFrom(history, batches)
    decreases |history|
  {
    if history == [] then t
    else
      var b := batches[history[|history| - 1]];
      Apply(Replay(t, batches, history[..|history| - 1]), b.rows, b.scope)
  }

  lemma {:induction false} ReplayLookup(t: Table, batches: seq<Batch>, history: seq<nat>, k: ResultKey, i: nat)
    requires Disjoint(batches) && i < |batches| && k in Keys(batches[i].rows, batches[i].scope)
    requires ChoosesFrom(history, batches)
    ensures k in Replay(t, batches, history) <==> k in t || i in history
    ensures i in history ==> Replay(t, batches, history)[k] == Final(batches[i].rows, batches[i].scope, k)
    ensures i !in history && k in t ==> Replay(t, batches, history)[k] == t[k]
    decreases |history|
  {
    if history != [] {
      var n := |history| - 1;
      var b := batches[history[n]];
      ReplayLookup(t, batches, history[..n], k, i);
      ApplyLookup(Replay(t, batches, history[..n]), b.rows, b.scope, k);
      assert history == history[..n] + [history[n]];
      assert history[n] != i ==> k !in Keys(b.rows, b.scope);
    }
  }

  lemma {:induction false} ReplayElsewhere(t: Table, batches: seq<Batch>, history: seq<nat>, k: ResultKey)
    requires ChoosesFrom(history, batches)
    requires forall i :: 0 <= i < |batches| ==> k !in Keys(batches[i].rows, batches[i].scope)
    ensures k in Replay(t, batches, history) <==> k in t
    ensures k in t ==> Replay(t, batches, history)[k] == t[k]
    decreases |history|
  {
    if history != [] {
      var n := |history| - 1;
      var b := batches[history[n]];
      ReplayElsewhere(t, batches, history[..n], k);
      ApplyLookup(Replay(t, batches, history[..n]), b.rows, b.scope, k);
    }
  }

  /** Whatever the repetitions and whatever the order, the table depends only on which batches ran. */
  lemma ExactlyOnceResults(t: Table, batches: seq<Batch>, one: seq<nat>, other: seq<nat>)
    requires Disjoint(batches)
    requires ChoosesFrom(one, batches)
    requires ChoosesFrom(other, batches)
    requires forall h :: h in one <==> h in other
    ensures Replay(t, batches, one) == Replay(t, batches, other)
  {
    var a, b := Replay(t, batches, one), Replay(t, batches, other);
    forall k ensures (k in a <==> k in b) && (k in a ==> a[k] == b[k]) {
      if i :| 0 <= i < |batches| && k in Keys(batches[i].rows, batches[i].scope) {
        ReplayLookup(t, batches, one, k, i);
        ReplayLookup(t, batches, other, k, i);
      } else {
        ReplayElsewhere(t, batches, one, k);
        ReplayElsewhere(t, batches, other, k);
      }
    }
    assert a.Keys == b.Keys;
  }

  /** Running one batch again, after anything that does not share its keys, changes nothing. */
  lemma ReapplyIsNoOp(t: Table, rows: seq<Row>, scope: Scope, between: seq<Row>, scope': Scope)
    requires Keys(rows, scope) !! Keys(between, scope')
    ensures var once := Apply(Apply(t, rows, scope), between, scope'); Apply(once, rows, scope) == once
  {
    var batches := [Batch(rows, scope), Batch(between, scope')];
    assert Replay(t, batches, [0, 1, 0]) == Apply(Apply(Apply(t, rows, scope), between, scope'), rows, scope) by {
      assert [0, 1, 0][..2] == [0, 1] && [0, 1][..1] == [0] && [0][..0] == [];
      assert Replay(t, batches, []) == t;
      assert Replay(t, batches, [0]) == Apply(t, rows, scope);
      assert Replay(t, batches, [0, 1]) == Apply(Apply(t, rows, scope), between, scope');
    }
    assert Replay(t, batches, [0, 1]) == Apply(Apply(t, rows, scope), between, scope') by {
      assert [0, 1][..1] == [0] && [0][..0] == [];
      assert Replay(t, batches, []) == t;
      assert Replay(t, batches, [0]) == Apply(t, rows, scope);
    }
    ExactlyOnceResults(t, batches, [0, 1, 0], [0, 1]);
  }

  // ---- Which rows share a key ---------------------------------------------------------------

  /** d is the first of feature, metadata, kind and `transform` that the row has. */
  predicate DetectorIs(row: Row, d: string) {
    || (row.featureDetector != "" && d == row.featureDetector)
    || (row.featureDetector == "" && row.metaDetector != "" && d == row.metaDetector)
    || (row.featureDetector == "" && row.metaDetector == "" && row.kind != "" && d == row.kind)
    || (row.featureDetector == "" && row.metaDetector == "" && row.kind == "" && d == "transform")
  }

  /** r is the first of feature, metadata and row rule that the row has, or nothing. */
  predicate RuleIs(row: Row, r: string) {
    || (row.featureRule != "" && r == row.featureRule)
    || (row.featureRule == "" && row.metaRule != "" && r == row.metaRule)
    || (row.featureRule == "" && row.metaRule == "" && r == row.rowRule)
  }

  /** Source rows share a key iff they name the same event, detector and rule under one contract. */
  lemma SourceKeysAreInjective(a: Row, b: Row, s: Scope, s': Scope, d: string, d': string, r: string, r': string)
    requires a.tenant.Some? && b.tenant.Some? && a.source.Some?
    requires DetectorIs(a, d) && DetectorIs(b, d') && RuleIs(a, r) && RuleIs(b, r')
    ensures KeyOf(a, s) == KeyOf(b, s') <==>
            && a.tenant == b.tenant && a.projection == b.projection && s.version == s'.version
            && a.workflow == b.workflow && a.source == b.source && d == d' && r == r'
  {}

  /**
   * Aggregate rows share a key iff they are of one kind and cover the same events under one contract; without input
   * events their content has to agree as well.
   */
  lemma AggregateKeysAreInjective(a: Row, b: Row, s: Scope, s': Scope)
    requires a.tenant.Some? && b.tenant.Some? && a.source.None? && b.source.None?
    ensures KeyOf(a, s) == KeyOf(b, s') <==>
            && a.tenant == b.tenant && a.projection == b.projection && s.version == s'.version
            && a.workflow == b.workflow && s.aggregate == s'.aggregate
            && (if a.kind == "" then "rollup" else a.kind) == (if b.kind == "" then "rollup" else b.kind)
            && (s.aggregate == {} ==> a.payload == b.payload)
  {}

  /** Two rows that the engine tells apart: by tenant, by event, or by a detector or rule that both of them name. */
  predicate ToldApart(a: Row, b: Row) {
    || a.tenant != b.tenant
    || (a.source.Some? && a.source != b.source)
    || (a.source.Some? && a.featureDetector != "" && b.featureDetector != "" && a.featureDetector != b.featureDetector)
    || (a.source.Some? && a.featureRule != "" && b.featureRule != "" && a.featureRule != b.featureRule)
  }

  /** Of a batch whose rows are told apart every row survives: each has its own key, and the table says what it said. */
  lemma DistinctRowsSurvive(t: Table, rows: seq<Row>, scope: Scope)
    requires forall i, j :: 0 <= i < j < |rows| && rows[i].tenant.Some? && rows[j].tenant.Some? ==> ToldApart(rows[i], rows[j])
    ensures forall i, j :: 0 <= i < j < |rows| && rows[i].tenant.Some? && rows[j].tenant.Some? ==>
              KeyOf(rows[i], scope) != KeyOf(rows[j], scope)
    ensures forall i :: 0 <= i < |rows| && rows[i].tenant.Some? ==>
              && KeyOf(rows[i], scope) in Apply(t, rows, scope)
              && Says(Apply(t, rows, scope)[KeyOf(rows[i], scope)], rows[i])
  {
    hide Apply;
    ApplyWrites(t, rows, scope);
    forall i | 0 <= i < |rows| && rows[i].tenant.Some?
      ensures KeyOf(rows[i], scope) in Apply(t, rows, scope) && Says(Apply(t, rows, scope)[KeyOf(rows[i], scope)], rows[i])
    {
      assert IsLast(rows, scope, i);
    }
  }
}
