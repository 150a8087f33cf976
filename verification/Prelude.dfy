/** Small shared vocabulary: optional values, the tuple order of a projection cursor, and a little arithmetic. */
module Prelude {
  datatype Option<+T> = None | Some(value: T)

  /** A workflow id has one fixed projection name, so tenant and workflow identify a projection lane. */
  datatype Lane = Lane(tenant: nat, workflow: nat)

  /** The (created_at, id) tuple that orders events and that a checkpoint row stores. */
  datatype Stamp = Stamp(at: int, id: nat)

  predicate Before(a: Stamp, b: Stamp) {
    a.at < b.at || (a.at == b.at && a.id < b.id)
  }

  predicate NotAfter(a: Stamp, b: Stamp) {
    a == b || Before(a, b)
  }

  /** SQL `lease <= NOW()`: NULL compares as unknown, hence false. */
  predicate Lapsed(lease: Option<int>, now: int) {
    lease.Some? && lease.value <= now
  }

  function Min(a: int, b: int): int { if a <= b then a else b }

  function Max(a: int, b: int): int { if a <= b then b else a }

  function Sum(xs: seq<real>): real {
    if xs == [] then 0.0 else Sum(xs[..|xs| - 1]) + xs[|xs| - 1]
  }

  /** n times the same value. */
  function Copies<T>(x: T, n: nat): (r: seq<T>)
    ensures |r| == n && forall i :: 0 <= i < n ==> r[i] == x
  {
    if n == 0 then [] else Copies(x, n - 1) + [x]
  }

  function Pow2(n: nat): nat { if n == 0 then 1 else 2 * Pow2(n - 1) }

  lemma {:induction false} Pow2Grows(a: nat, b: nat)
    requires a <= b
    ensures 1 <= Pow2(a) <= Pow2(b)
  {
    if b > 0 { Pow2Grows(if a < b then a else a - 1, b - 1); }
  }

  lemma SmallPowers(n: nat)
    requires 1 <= n < 7
    ensures Pow2(n) == 2 * Pow2(n - 1) <= 64
  {
    assert Pow2(3) == 8 by { assert Pow2(1) == 2; }
    assert Pow2(6) == 64;
  }
}
