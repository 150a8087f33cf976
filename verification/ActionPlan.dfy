/** Normalizing a playbook's action plan, and the retry delay of a webhook (playbooks.py). */
module ActionPlan {
  import opened Decimal
  import opened Prelude
  import opened Playbooks

  const MAX_ACTIONS := 50
  const MAX_TYPE_LENGTH := 64
  const MAX_KEY_LENGTH := 128

  /** A plan entry as stored JSON: missing strings read as empty, a configuration maps keys to values. */
  datatype Raw =
    | NotAnObject
    | Object(actionType: string, key: string, actionId: string, configuration: map<string, string>, sortOrder: Option<int>)

  datatype Action = Action(
    key: string, actionId: Option<string>, actionType: string, configuration: map<string, string>, sortOrder: int)

  /** Parses a UUID and prints it canonically; what it prints, it accepts and leaves alone. */
  ghost predicate IsCanonicalizer(canon: string -> Option<string>) {
    canon("").None? && forall x :: canon(x).Some? ==> canon(canon(x).value) == canon(x)
  }

  function Truncate(text: string, n: nat): string { if |text| <= n then text else text[..n] }

  function AllowedKeys(actionType: string): set<string> {
    if actionType == "webhook" then {"url", "secret_ref"}
    else if actionType == "email_alert" then {"template", "channel_ref"}
    else if actionType == "block_ip" then {"provider_ref", "duration_seconds"}
    else if actionType == "revoke_api_key" then {"credential_ref"}
    else {}
  }

  function Keep(configuration: map<string, string>, allowed: set<string>): map<string, string> {
    map k | k in configuration && k in allowed :: configuration[k]
  }

  function KeyFor(raw: Raw, ordinal: nat): string
    requires raw.Object?
  {
    if raw.key != "" then raw.key else if raw.actionId != "" then raw.actionId else "plan:" + Digits(ordinal)
  }

  function TypeOf(raw: Raw): string
    requires raw.Object?
  {
    Truncate(raw.actionType, MAX_TYPE_LENGTH)
  }

  function Normalized(raw: Raw, ordinal: nat, canon: string -> Option<string>): Action
    requires raw.Object?
  {
    Action(KeyFor(raw, ordinal), canon(raw.actionId), TypeOf(raw),
           Keep(raw.configuration, AllowedKeys(TypeOf(raw))),
           if raw.sortOrder.Some? then raw.sortOrder.value else ordinal)
  }

  predicate WellFormed(raw: Raw, ordinal: nat) {
    raw.Object? && TypeOf(raw) != "" && 1 <= |KeyFor(raw, ordinal)| <= MAX_KEY_LENGTH
  }

  predicate Acceptable(plan: seq<Raw>) {
    && |plan| <= MAX_ACTIONS
    && (forall i :: 0 <= i < |plan| ==> WellFormed(plan[i], i))
    && (forall i, j :: 0 <= i < j < |plan| ==> KeyFor(plan[i], i) != KeyFor(plan[j], j))
  }

  function NormalizedPlan(plan: seq<Raw>, canon: string -> Option<string>): seq<Action>
    requires Acceptable(plan)
  {
    seq(|plan|, i requires 0 <= i < |plan| => Normalized(plan[i], i, canon))
  }

  predicate DistinctKeys(actions: seq<Action>) {
    forall i, j :: 0 <= i < j < |actions| ==> actions[i].key != actions[j].key
  }

  /** Rejects the whole plan or normalizes every entry; the result's keys name its positions uniquely. */
  method NormalizeActionPlan(plan: seq<Raw>, canon: string -> Option<string>) returns (r: Option<seq<Action>>)
    ensures r.Some? <==> Acceptable(plan)
    ensures r.Some? ==> r.value == NormalizedPlan(plan, canon) && DistinctKeys(r.value)
  {
    if |plan| > MAX_ACTIONS { return None; }
    var normalized: seq<Action> := [];
    var seen: set<string> := {};
    for ordinal := 0 to |plan|
      invariant |normalized| == ordinal
      invariant forall i :: 0 <= i < ordinal ==> WellFormed(plan[i], i) && normalized[i] == Normalized(plan[i], i, canon)
      invariant seen == set i | 0 <= i < ordinal :: normalized[i].key
      invariant DistinctKeys(normalized)
    {
      var raw := plan[ordinal];
      if raw.NotAnObject? { return None; }
      var actionType := Truncate(raw.actionType, MAX_TYPE_LENGTH);
      var key := KeyFor(raw, ordinal);
      if actionType == "" || |key| < 1 || |key| > MAX_KEY_LENGTH || key in seen {
        assert key in seen ==> exists i :: 0 <= i < ordinal && KeyFor(plan[i], i) == key;
        return None;
      }
      seen := seen + {key};
      normalized := normalized + [Normalized(raw, ordinal, canon)];
    }
    return Some(normalized);
  }

  /** Whether an action of this type may keep this configuration entry. */
  predicate MayKeep(actionType: string, k: string) {
    || (actionType == "webhook" && (k == "url" || k == "secret_ref"))
    || (actionType == "email_alert" && (k == "template" || k == "channel_ref"))
    || (actionType == "block_ip" && (k == "provider_ref" || k == "duration_seconds"))
    || (actionType == "revoke_api_key" && k == "credential_ref")
  }

  /** Normalizing keeps exactly the configuration entries the action's type may have, with their values. */
  lemma ConfigurationIsFiltered(raw: Raw, ordinal: nat, canon: string -> Option<string>, k: string)
    requires WellFormed(raw, ordinal)
    ensures var a := Normalized(raw, ordinal, canon);
            && (k in a.configuration <==> k in raw.configuration && MayKeep(a.actionType, k))
            && (k in a.configuration ==> a.configuration[k] == raw.configuration[k])
  {}

  /** The key is the entry's own, else its action id, else its position; type and order are the entry's, if it has them. */
  lemma NormalizedSays(raw: Raw, ordinal: nat, canon: string -> Option<string>)
    requires WellFormed(raw, ordinal)
    ensures var a := Normalized(raw, ordinal, canon);
            && (raw.key != "" ==> a.key == raw.key)
            && (raw.key == "" && raw.actionId != "" ==> a.key == raw.actionId)
            && (raw.key == "" && raw.actionId == "" ==> a.key == "plan:" + Digits(ordinal))
            && a.actionType <= raw.actionType && (|raw.actionType| <= 64 ==> a.actionType == raw.actionType)
            && |a.actionType| <= 64 && a.actionId == canon(raw.actionId)
            && a.sortOrder == (if raw.sortOrder.None? then ordinal else raw.sortOrder.value)
  {}

  /** Entries that name neither a key nor an action never collide. */
  lemma PositionsDoNotCollide(a: Raw, i: nat, b: Raw, j: nat)
    requires a.Object? && b.Object? && i != j
    requires a.key == "" && a.actionId == "" && b.key == "" && b.actionId == ""
    ensures KeyFor(a, i) != KeyFor(b, j)
  {
    if KeyFor(a, i) == KeyFor(b, j) {
      assert KeyFor(a, i)[5..] == Digits(i) && KeyFor(b, j)[5..] == Digits(j);
      ValueOfDigits(i);
      ValueOfDigits(j);
    }
  }

  /** A plan is rejected iff it has more than 50 entries, a malformed one, or two with one key. */
  lemma RejectedExactly(plan: seq<Raw>)
    ensures !Acceptable(plan) <==>
            || |plan| > 50
            || (exists i :: 0 <= i < |plan| && (plan[i].NotAnObject? || plan[i].actionType == "" || |KeyFor(plan[i], i)| > 128))
            || (exists i, j :: 0 <= i < j < |plan| && plan[i].Object? && plan[j].Object? && KeyFor(plan[i], i) == KeyFor(plan[j], j))
  {
    forall i | 0 <= i < |plan|
      ensures WellFormed(plan[i], i) <==> plan[i].Object? && plan[i].actionType != "" && |KeyFor(plan[i], i)| <= 128
    {}
  }

  /** How a normalized action reads when a run loads its stored plan again. */
  function Stored(a: Action): Raw {
    Object(a.actionType, a.key, if a.actionId.Some? then a.actionId.value else "", a.configuration, Some(a.sortOrder))
  }

  function StoredPlan(actions: seq<Action>): seq<Raw> {
    seq(|actions|, i requires 0 <= i < |actions| => Stored(actions[i]))
  }

  lemma NormalizedIsStable(raw: Raw, ordinal: nat, canon: string -> Option<string>)
    requires WellFormed(raw, ordinal) && IsCanonicalizer(canon)
    ensures var a := Normalized(raw, ordinal, canon);
            WellFormed(Stored(a), ordinal) && Normalized(Stored(a), ordinal, canon) == a
  {}

  /**
   * A run stores its normalized plan and normalizes it again at every resume; that second pass accepts the plan
   * and changes nothing, so the keys that guard already started actions never change.
   */
  lemma ResumeSeesTheSamePlan(plan: seq<Raw>, canon: string -> Option<string>)
    requires Acceptable(plan) && IsCanonicalizer(canon)
    ensures var stored := StoredPlan(NormalizedPlan(plan, canon));
            Acceptable(stored) && NormalizedPlan(stored, canon) == NormalizedPlan(plan, canon)
  {
    var stored := StoredPlan(NormalizedPlan(plan, canon));
    forall i | 0 <= i < |plan|
      ensures WellFormed(stored[i], i) && Normalized(stored[i], i, canon) == Normalized(plan[i], i, canon)
      ensures KeyFor(stored[i], i) == KeyFor(plan[i], i)
    {
      NormalizedIsStable(plan[i], i, canon);
      assert Normalized(stored[i], i, canon).key == KeyFor(stored[i], i);
    }
  }

  // ---- Retry delay --------------------------------------------------------------------------

  /** Between base and cap, never shorter for a later attempt, and never shorter than the (capped) Retry-After. */
  lemma BackoffBounds(attempt: nat, later: nat, retryAfter: Option<int>)
    requires 1 <= attempt <= later
    ensures RETRY_BASE_SECONDS <= Backoff(attempt, retryAfter) <= Backoff(later, retryAfter) <= RETRY_CAP_SECONDS
    ensures retryAfter.Some? ==> Min(retryAfter.value, RETRY_CAP_SECONDS) <= Backoff(attempt, retryAfter)
    ensures attempt >= 7 ==> Backoff(attempt, retryAfter) == RETRY_CAP_SECONDS
  {
    Pow2Grows(0, Min(attempt - 1, 10));
    Pow2Grows(Min(attempt - 1, 10), Min(later - 1, 10));
    if attempt >= 7 {
      Pow2Grows(6, Min(attempt - 1, 10));
      assert Pow2(6) == 64 by { assert Pow2(3) == 8; }
    }
  }
}
