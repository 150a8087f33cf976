/**
 * The size-anomaly detector of the sealed pipeline (pipeline.rs), in exact reals. A population z-score is
 * compared through its square, so no square root is needed: |z| >= k means deviation² >= k²·variance.
 */
module SizeAnomaly {
  import opened Prelude

  /** The square of the smallest standard deviation the detector trusts, 1e-9. */
  const MIN_VARIANCE: real := 0.000000000000000001

  const DEFAULT_ZSCORE: real := 2.5

  datatype Reason = MaxCipherLen | ZScore | Fine

  datatype Verdict = Verdict(cipherLen: int, isAnomaly: bool, reason: Reason)

  // ---- The statistics -----------------------------------------------------------------------

  function Square(x: real): real { x * x }

  function Squares(xs: seq<real>): real {
    if xs == [] then 0.0 else Squares(xs[..|xs| - 1]) + Square(xs[|xs| - 1])
  }

  function Reals(lens: seq<int>): seq<real> { seq(|lens|, i requires 0 <= i < |lens| => lens[i] as real) }

  function Mean(lens: seq<int>): real
    requires lens != []
  {
    Sum(Reals(lens)) / |lens| as real
  }

  function Deviations(lens: seq<int>): seq<real>
    requires lens != []
  {
    seq(|lens|, i requires 0 <= i < |lens| => lens[i] as real - Mean(lens))
  }

  /** The population variance; a single event has none. */
  function Variance(lens: seq<int>): real
    requires lens != []
  {
    if |lens| > 1 then Squares(Deviations(lens)) / |lens| as real else 0.0
  }

  /** |deviation| / std >= zscore, without the root; any non-positive threshold is met by every event. */
  predicate Far(deviation: real, variance: real, zscore: real) {
    zscore <= 0.0 || Square(deviation) >= Square(zscore) * variance
  }

  predicate Spike(lens: seq<int>, i: nat, zscore: real)
    requires i < |lens|
  {
    Variance(lens) >= MIN_VARIANCE && Far(Deviations(lens)[i], Variance(lens), zscore)
  }

  function VerdictFor(lens: seq<int>, i: nat, zscore: real, maxCipherLen: int): Verdict
    requires i < |lens|
  {
    var hard := lens[i] >= maxCipherLen;
    var spike := Spike(lens, i, zscore);
    Verdict(lens[i], hard || spike, if hard then MaxCipherLen else if spike then ZScore else Fine)
  }

  lemma SumSnoc(xs: seq<real>, i: nat)
    requires i < |xs|
    ensures Sum(xs[..i + 1]) == Sum(xs[..i]) + xs[i] && Squares(xs[..i + 1]) == Squares(xs[..i]) + Square(xs[i])
  {
    assert xs[..i + 1][..i] == xs[..i];
  }

  method DetectSizeAnomalies(lens: seq<int>, zscore: real, maxCipherLen: int) returns (verdicts: seq<Verdict>)
    ensures |verdicts| == |lens|
    ensures forall i :: 0 <= i < |lens| ==> verdicts[i] == VerdictFor(lens, i, zscore, maxCipherLen)
  {
    if lens == [] { return []; }
    var n := |lens| as real;
    var total := 0.0;
    for i := 0 to |lens|
      invariant total == Sum(Reals(lens)[..i])
    {
      SumSnoc(Reals(lens), i);
      total := total + lens[i] as real;
    }
    assert Reals(lens)[..|lens|] == Reals(lens);
    var mean := total / n;
    assert mean == Mean(lens);
    var variance := PopulationVariance(lens, mean);
    verdicts := [];
    for i := 0 to |lens|
      invariant |verdicts| == i
      invariant forall j :: 0 <= j < i ==> verdicts[j] == VerdictFor(lens, j, zscore, maxCipherLen)
    {
      var deviation := lens[i] as real - mean;
      assert deviation == Deviations(lens)[i];
      var hard := lens[i] >= maxCipherLen;
      var spike := variance >= MIN_VARIANCE && Far(deviation, variance, zscore);
      var reason := if hard then MaxCipherLen else if spike then ZScore else Fine;
      verdicts := verdicts + [Verdict(lens[i], hard || spike, reason)];
    }
  }

  method PopulationVariance(lens: seq<int>, mean: real) returns (variance: real)
    requires lens != [] && mean == Mean(lens)
    ensures variance == Variance(lens)
  {
    if |lens| <= 1 { return 0.0; }
    var squares := 0.0;
    for i := 0 to |lens|
      invariant squares == Squares(Deviations(lens)[..i])
    {
      SumSnoc(Deviations(lens), i);
      var d := lens[i] as real - mean;
      assert d == Deviations(lens)[i];
      squares := squares + Square(d);
    }
    assert Deviations(lens)[..|lens|] == Deviations(lens);
    return squares / |lens| as real;
  }

  // ---- What a verdict says ------------------------------------------------------------------

  /** An event is anomalous iff it is too long or a spike, and the reason says which, length first. */
  lemma VerdictSays(lens: seq<int>, i: nat, zscore: real, maxCipherLen: int)
    requires i < |lens|
    ensures var v := VerdictFor(lens, i, zscore, maxCipherLen);
            && v.cipherLen == lens[i]
            && (v.isAnomaly <==> lens[i] >= maxCipherLen || Spike(lens, i, zscore))
            && (v.reason.MaxCipherLen? <==> lens[i] >= maxCipherLen)
            && (v.reason.Fine? <==> !v.isAnomaly)
  {}

  function Absolute(x: real): real { if x < 0.0 then -x else x }

  lemma SquareIsMonotone(a: real, b: real)
    requires 0.0 <= a && 0.0 <= b
    ensures Square(a) <= Square(b) <==> a <= b
  {
    if a <= b { Scale(a, b, a); Scale(a, b, b); } else { Scale(b, a, b); SquareGap(b, a); }
  }

  lemma PositiveProduct(x: real, y: real)
    requires x > 0.0 && y > 0.0
    ensures x * y > 0.0
  {}

  lemma SquareGap(b: real, a: real)
    requires 0.0 <= b < a
    ensures Square(b) < Square(a)
  {
    PositiveProduct(a - b, a + b);
    assert a * a - b * b == (a - b) * (a + b);
  }

  lemma ProductSquare(a: real, b: real)
    ensures Square(a * b) == Square(a) * Square(b)
  {
    var c := a * b;
    assert c * c == (a * a) * (b * b);
  }

  lemma Commute(a: real, b: real)
    ensures a * b == b * a
  {}

  lemma FactorBound(d: real, std: real, k: real, q: real)
    requires std > 0.0 && q * std == d
    ensures q >= k <==> d >= k * std
  {
    if q >= k { Scale(k, q, std); }
    if d >= k * std {
      Commute(q, std);
      Cancel(k, q, std);
    }
  }

  lemma QuotientBound(d: real, std: real, k: real)
    requires std > 0.0
    ensures d / std >= k <==> d >= k * std
  {
    DivideBack(d, std);
    FactorBound(d, std, k, d / std);
  }

  /** With std the standard deviation: a spike is an event whose z-score is at least the threshold, if std is not tiny. */
  lemma SpikeIsZScore(lens: seq<int>, i: nat, zscore: real, std: real)
    requires i < |lens| && std > 0.0 && Square(std) == Variance(lens)
    ensures Spike(lens, i, zscore) <==> std >= 0.000000001 && Absolute(Deviations(lens)[i]) / std >= zscore
  {
    hide Variance;
    var d := Deviations(lens)[i];
    TinySquare();
    SquareIsMonotone(0.000000001, std);
    QuotientBound(Absolute(d), std, zscore);
    FarMeans(d, std, zscore);
  }

  lemma TinySquare()
    ensures Square(0.000000001) == MIN_VARIANCE
  {}

  lemma FarMeans(d: real, std: real, zscore: real)
    requires std > 0.0
    ensures Far(d, Square(std), zscore) <==> Absolute(d) >= zscore * std
  {
    SquareOfNegation(d);
    if zscore <= 0.0 {
      Scale(zscore, 0.0, std);
    } else {
      ProductSquare(zscore, std);
      Scale(0.0, zscore, std);
      hide Square;
      SquareIsMonotone(zscore * std, Absolute(d));
    }
  }

  // ---- Chebyshev ----------------------------------------------------------------------------

  /** How many deviations reach a squared bound. */
  function CountFar(ds: seq<real>, bound: real): nat {
    if ds == [] then 0 else CountFar(ds[..|ds| - 1], bound) + if Square(ds[|ds| - 1]) >= bound then 1 else 0
  }

  lemma {:induction false} FarShare(ds: seq<real>, bound: real)
    ensures Squares(ds) >= 0.0
    ensures CountFar(ds, bound) as real * bound <= Squares(ds)
  {
    if ds != [] {
      var n := |ds| - 1;
      FarShare(ds[..n], bound);
      var rest := CountFar(ds[..n], bound);
      assert (rest + 1) as real * bound == rest as real * bound + bound;
      assert Square(ds[n]) >= 0.0;
    }
  }

  function Spikes(lens: seq<int>, zscore: real): set<nat> {
    set i: nat | i < |lens| && Spike(lens, i, zscore)
  }

  function FarSet(ds: seq<real>, bound: real, n: nat): set<nat>
    requires n <= |ds|
  {
    set i: nat | i < n && Square(ds[i]) >= bound
  }

  lemma {:induction false} CountFarIsSet(ds: seq<real>, bound: real, n: nat)
    requires n <= |ds|
    ensures CountFar(ds[..n], bound) == |FarSet(ds, bound, n)|
  {
    var far := FarSet(ds, bound, n);
    if n == 0 {
      assert far == {};
    } else {
      CountFarIsSet(ds, bound, n - 1);
      var before := FarSet(ds, bound, n - 1);
      assert ds[..n][..n - 1] == ds[..n - 1];
      assert far == before + if Square(ds[n - 1]) >= bound then {n - 1} else {};
    }
  }

  lemma SpikesAreFar(lens: seq<int>, zscore: real, bound: real)
    requires zscore > 0.0 && Spikes(lens, zscore) != {} && bound == Square(zscore) * Variance(lens)
    ensures Variance(lens) > 0.0 && Variance(lens) == Squares(Deviations(lens)) / |lens| as real
    ensures Spikes(lens, zscore) == FarSet(Deviations(lens), bound, |Deviations(lens)|)
  {
    var i :| i in Spikes(lens, zscore);
  }

  lemma FewFar(ds: seq<real>, bound: real, k2: real, variance: real, n: real)
    requires n > 0.0 && variance > 0.0 && variance == Squares(ds) / n && bound == k2 * variance
    ensures CountFar(ds, bound) as real * k2 <= n
  {
    FarShare(ds, bound);
    DivideBack(Squares(ds), n);
    ShareBound(CountFar(ds, bound) as real, k2, variance, n, Squares(ds), bound);
  }

  lemma CountIsSpikes(lens: seq<int>, zscore: real, bound: real)
    requires zscore > 0.0 && Spikes(lens, zscore) != {} && bound == Square(zscore) * Variance(lens)
    ensures CountFar(Deviations(lens), bound) == |Spikes(lens, zscore)|
  {
    SpikesAreFar(lens, zscore, bound);
    var ds := Deviations(lens);
    CountFarIsSet(ds, bound, |ds|);
    assert ds[..|ds|] == ds;
  }

  /** At most n / k² of n events are spikes. */
  lemma FewSpikes(lens: seq<int>, zscore: real)
    requires zscore > 0.0
    ensures |Spikes(lens, zscore)| as real * Square(zscore) <= |lens| as real
  {
    hide Square, Squares, CountFar, Variance, Deviations, Spike;
    if Spikes(lens, zscore) == {} {
      assert |Spikes(lens, zscore)| as real * Square(zscore) == 0.0;
    } else {
      var bound := Square(zscore) * Variance(lens);
      SpikesAreFar(lens, zscore, bound);
      CountIsSpikes(lens, zscore, bound);
      FewFar(Deviations(lens), bound, Square(zscore), Variance(lens), |lens| as real);
    }
  }

  lemma ShareBound(m: real, k2: real, variance: real, n: real, squares: real, bound: real)
    requires m * bound <= squares && bound == k2 * variance && squares == variance * n && variance > 0.0
    ensures m * k2 <= n
  {
    var share := m * k2;
    assert m * bound == share * variance;
    Cancel(share, n, variance);
  }

  lemma Scale(a: real, b: real, c: real)
    requires a <= b && c >= 0.0
    ensures a * c <= b * c
  {}

  lemma DivideBack(a: real, b: real)
    requires b != 0.0
    ensures a / b * b == a
  {}

  lemma Cancel(a: real, b: real, c: real)
    requires c > 0.0 && a * c <= c * b
    ensures a <= b
  {}

  // ---- Samuelson ----------------------------------------------------------------------------

  /** (x1 + … + xm)² <= m · (x1² + … + xm²). */
  lemma {:induction false} SumOfSquaresDominates(xs: seq<real>)
    ensures Squares(xs) >= 0.0
    ensures Square(Sum(xs)) <= |xs| as real * Squares(xs)
  {
    if xs != [] {
      var n := |xs| - 1;
      SumOfSquaresDominates(xs[..n]);
      CauchyStep(n as real, Sum(xs[..n]), Squares(xs[..n]), xs[n]);
    }
  }

  lemma CauchyStep(m: real, s: real, q: real, x: real)
    requires m >= 0.0 && q >= 0.0 && Square(s) <= m * q && (m == 0.0 ==> s == 0.0)
    ensures Square(s + x) <= (m + 1.0) * (q + Square(x))
  {
    assert Square(s + x) == Square(s) + 2.0 * (s * x) + Square(x);
    assert (m + 1.0) * (q + Square(x)) == m * q + m * Square(x) + q + Square(x);
    if m == 0.0 {
      assert s * x == 0.0;
      assert m * Square(x) == 0.0;
    } else {
      assert Square(m * x - s) >= 0.0;
      assert Square(m * x - s) == m * (m * Square(x)) - m * (2.0 * (s * x)) + Square(s);
      assert m * (2.0 * (s * x)) <= m * (m * Square(x) + q);
      Cancel(2.0 * (s * x), m * Square(x) + q, m);
    }
  }

  lemma SquareOfNegation(s: real)
    ensures Square(-s) == Square(s)
  {
    assert Square(-s) == (-s) * (-s) == s * s;
  }

  function Without(xs: seq<real>, i: nat): seq<real>
    requires i < |xs|
  {
    xs[..i] + xs[i + 1..]
  }

  lemma {:induction false} SumWithout(xs: seq<real>, i: nat)
    requires i < |xs|
    ensures Sum(Without(xs, i)) == Sum(xs) - xs[i] && Squares(Without(xs, i)) == Squares(xs) - Square(xs[i])
  {
    var n := |xs| - 1;
    if i == n {
      assert Without(xs, i) == xs[..n];
    } else {
      SumWithout(xs[..n], i);
      assert Without(xs, i)[..n - 1] == Without(xs[..n], i);
      assert Without(xs, i)[n - 1] == xs[n];
    }
  }

  lemma {:induction false} SumShifted(lens: seq<int>, mean: real, n: nat)
    requires n <= |lens|
    ensures Sum(seq(n, i requires 0 <= i < n => lens[i] as real - mean)) == Sum(Reals(lens)[..n]) - n as real * mean
  {
    if n > 0 {
      var shifted := seq(n, i requires 0 <= i < n => lens[i] as real - mean);
      SumShifted(lens, mean, n - 1);
      assert shifted[..n - 1] == seq(n - 1, i requires 0 <= i < n - 1 => lens[i] as real - mean);
      SumSnoc(Reals(lens), n - 1);
      assert n as real * mean == (n - 1) as real * mean + mean;
    }
  }

  lemma DeviationsCancel(lens: seq<int>)
    requires lens != []
    ensures Sum(Deviations(lens)) == 0.0
  {
    SumShifted(lens, Mean(lens), |lens|);
    assert Reals(lens)[..|lens|] == Reals(lens);
    assert |lens| as real * Mean(lens) == Sum(Reals(lens));
  }

  lemma OneAgainstRest(ds: seq<real>, i: nat)
    requires i < |ds| && Sum(ds) == 0.0
    ensures Square(ds[i]) <= (|ds| as real - 1.0) * (Squares(ds) - Square(ds[i]))
  {
    hide Sum, Squares, Square;
    var rest := Without(ds, i);
    SumWithout(ds, i);
    SumOfSquaresDominates(rest);
    SquareOfNegation(ds[i]);
    assert Sum(rest) == -ds[i];
    assert |rest| as real == |ds| as real - 1.0;
  }

  /** No event lies further than sqrt(n - 1) standard deviations from the mean. */
  lemma NoDeviationBeyond(lens: seq<int>, i: nat)
    requires |lens| > 1 && i < |lens|
    ensures Square(Deviations(lens)[i]) <= (|lens| - 1) as real * Variance(lens)
  {
    var ds, n := Deviations(lens), |lens| as real;
    assert Variance(lens) == Squares(ds) / n;
    DeviationsCancel(lens);
    OneAgainstRest(ds, i);
    DivideBack(Squares(ds), n);
    ShareOfOne(Square(ds[i]), Squares(ds), Variance(lens), n);
  }

  lemma ShareOfOne(d: real, q: real, variance: real, n: real)
    requires d <= (n - 1.0) * (q - d) && q == variance * n && n > 0.0
    ensures d <= (n - 1.0) * variance
  {
    var m := n - 1.0;
    assert m * (q - d) == m * q - m * d;
    assert m * d == n * d - d;
    var bound := m * variance;
    assert m * (variance * n) == bound * n;
    Cancel(d, bound, n);
  }

  /** n - 1 equal events and one that stands out as far as is possible. */
  function Outlier(n: nat): seq<int>
    requires n >= 1
  {
    seq(n, i => if i == n - 1 then n else 0)
  }

  lemma {:induction false} OutlierSums(n: nat, m: nat)
    requires 1 <= n && m <= n
    ensures Sum(Reals(Outlier(n))[..m]) == if m == n then n as real else 0.0
  {
    if m > 0 {
      OutlierSums(n, m - 1);
      SumSnoc(Reals(Outlier(n)), m - 1);
    }
  }

  lemma {:induction false} OutlierSquares(n: nat, m: nat)
    requires 1 <= n && m <= n && Mean(Outlier(n)) == 1.0
    ensures Squares(Deviations(Outlier(n))[..m])
            == if m == n then (n - 1) as real + Square((n - 1) as real) else m as real
  {
    if m > 0 {
      OutlierSquares(n, m - 1);
      SumSnoc(Deviations(Outlier(n)), m - 1);
    }
  }

  lemma OutlierStandsOut(n: nat)
    requires n >= 2
    ensures Variance(Outlier(n)) == (n - 1) as real && Deviations(Outlier(n))[n - 1] == (n - 1) as real
  {
    var lens, x := Outlier(n), n as real;
    OutlierSums(n, n);
    assert Reals(lens)[..n] == Reals(lens);
    assert Mean(lens) == x / x == 1.0;
    OutlierSquares(n, n);
    assert Deviations(lens)[..n] == Deviations(lens);
    assert (n - 1) as real == x - 1.0;
    assert Squares(Deviations(lens)) == (x - 1.0) + Square(x - 1.0);
    DivideBack(Squares(Deviations(lens)), x);
    OutlierVariance(x, Squares(Deviations(lens)) / x);
  }

  lemma OutlierVariance(x: real, v: real)
    requires x > 0.0 && v * x == (x - 1.0) + Square(x - 1.0)
    ensures v == x - 1.0
  {
    var y := x - 1.0;
    assert y + Square(y) == y + y * y == y * (y + 1.0);
    assert v * x == y * x;
    Cancel(v, x - 1.0, x);
    Cancel(x - 1.0, v, x);
  }

  /** The detector's z-score can fire on some batch of n events exactly when n >= k² + 1. */
  lemma SpikePossibleExactly(n: nat, zscore: real)
    requires zscore > 0.0 && n >= 1
    ensures (exists lens: seq<int>, i: nat :: |lens| == n && i < n && Spike(lens, i, zscore))
            <==> n >= 2 && Square(zscore) + 1.0 <= n as real
  {
    forall lens: seq<int>, i: nat | |lens| == n && i < n && Spike(lens, i, zscore)
      ensures n >= 2 && Square(zscore) + 1.0 <= n as real
    {
      NoDeviationBeyond(lens, i);
      Cancel(Square(zscore), (n - 1) as real, Variance(lens));
    }
    if n >= 2 && Square(zscore) + 1.0 <= n as real {
      OutlierStandsOut(n);
      Scale(Square(zscore), (n - 1) as real, (n - 1) as real);
      assert Square((n - 1) as real) == (n - 1) as real * (n - 1) as real;
      assert Spike(Outlier(n), n - 1, zscore);
    }
  }

  /** With the default threshold the z-score needs at least eight events, and eight can suffice. */
  lemma DefaultNeedsEightEvents(lens: seq<int>, i: nat)
    requires i < |lens| && Spike(lens, i, DEFAULT_ZSCORE)
    ensures |lens| >= 8 && Spike(Outlier(8), 7, DEFAULT_ZSCORE)
  {
    SpikePossibleExactly(|lens|, DEFAULT_ZSCORE);
    OutlierStandsOut(8);
  }
}
