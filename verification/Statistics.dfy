/** Running statistics and their binned form, over real numbers. */
module Statistics {

  function Sum(s: seq<real>): (r: real) {
    if s == [] then 0.0 else Sum(s[..|s| - 1]) + s[|s| - 1]
  }

  /** Sum of squared deviations from `m`. */
  function Deviations(s: seq<real>, m: real): (r: real) {
    if s == [] then 0.0 else Deviations(s[..|s| - 1], m) + Square(s[|s| - 1] - m)
  }

  function Square(x: real): (r: real) { x * x }

  /** Sum of squared deviations `d` from `m`, re-centred at `m + e`, for `n` values adding up to `sum`. */
  function Recentred(d: real, sum: real, n: real, m: real, e: real): (r: real) {
    d - 2.0 * e * (sum - n * m) + n * (e * e)
  }

  lemma {:induction false} MoveCentre(s: seq<real>, m: real, e: real)
    ensures Deviations(s, m + e) == Recentred(Deviations(s, m), Sum(s), |s| as real, m, e)
  {
    if s != [] {
      hide *;
      var t, x := s[..|s| - 1], s[|s| - 1];
      MoveCentre(t, m, e);
      Last(s, m);
      Last(s, m + e);
      RecentreStep(Deviations(t, m), x, m, e, Sum(t), |t| as real);
    }
  }

  lemma RecentreStep(d: real, x: real, m: real, e: real, sum: real, n: real)
    ensures Recentred(d, sum, n, m, e) + Square(x - (m + e)) == Recentred(d + Square(x - m), sum + x, n + 1.0, m, e)
  {
    var y, z := x - m, sum - n * m;
    assert Square(x - (m + e)) == (y - e) * (y - e) == y * y - 2.0 * e * y + e * e;
    assert sum + x - (n + 1.0) * m == z + y by { assert (n + 1.0) * m == n * m + m; }
    assert 2.0 * e * (z + y) == 2.0 * e * z + 2.0 * e * y;
    assert (n + 1.0) * (e * e) == n * (e * e) + e * e;
  }

  lemma Last(s: seq<real>, m: real)
    requires s != []
    ensures var n, x := |s| - 1, s[|s| - 1];
      && Sum(s) == Sum(s[..n]) + x
      && Deviations(s, m) == Deviations(s[..n], m) + Square(x - m)
      && |s| as real == n as real + 1.0
  {}

  lemma Append(s: seq<real>, v: real, m: real)
    ensures Sum(s + [v]) == Sum(s) + v
    ensures Deviations(s + [v], m) == Deviations(s, m) + Square(v - m)
  {
    assert (s + [v])[..|s|] == s;
  }

  ghost predicate IsMean(m: real, s: seq<real>) { m * |s| as real == Sum(s) }

  function NextMean(m: real, v: real, k: real): (r: real)
    requires k != 0.0
  {
    m + (v - m) / k
  }

  /** What one value adds to the sum of squared deviations, from the means before and after it. */
  function Growth(v: real, m: real, m': real): (r: real) { (v - m) * (v - m') }

  /** Welford's step: the new mean is the average, and the increment keeps the sum of squared deviations. */
  lemma WelfordStep(s: seq<real>, v: real, mean: real)
    requires s != [] && IsMean(mean, s)
    ensures var mean' := NextMean(mean, v, (|s| + 1) as real);
      IsMean(mean', s + [v]) && Deviations(s + [v], mean') == Deviations(s, mean) + Growth(v, mean, mean')
  {
    hide Sum, Deviations, Recentred, Square, NextMean, Growth;
    var mean' := NextMean(mean, v, (|s| + 1) as real);
    var n, e := |s| as real, mean' - mean;
    assert (|s| + 1) as real == n + 1.0;
    Append(s, v, mean');
    MoveCentre(s, mean, e);
    assert mean + e == mean';
    WelfordAlgebra(Deviations(s, mean), Sum(s), n, mean, v);
  }

  lemma WelfordAlgebra(d: real, sum: real, n: real, m: real, v: real)
    requires n >= 1.0 && m * n == sum
    ensures var m' := NextMean(m, v, n + 1.0);
      && m' * (n + 1.0) == sum + v
      && Recentred(d, sum, n, m, m' - m) + Square(v - m') == d + Growth(v, m, m')
  {
    var k := n + 1.0;
    var m' := NextMean(m, v, k);
    var e := m' - m;
    Quotient(v - m, k);
    assert k * e == v - m && k * e == n * e + e;
    assert m' * k == m * k + k * e by { assert m' == m + e; Distribute(m, e, k); }
    Squares(n, e);
    assert sum - n * m == 0.0;
  }

  lemma Quotient(x: real, k: real)
    requires k != 0.0
    ensures k * (x / k) == x
  {}

  lemma Distribute(a: real, b: real, k: real)
    ensures (a + b) * k == a * k + k * b
  {}

  lemma Squares(n: real, e: real)
    ensures n * (e * e) + (n * e) * (n * e) == ((n + 1.0) * e) * (n * e)
  {
    var f := n * e;
    assert (n + 1.0) * e == f + e;
    assert (f + e) * f == f * f + e * f;
    assert e * f == n * (e * e);
  }

  /** The extremes after one more value. */
  lemma ExtremesStep(s: seq<real>, v: real, lo: real, hi: real)
    requires s != [] ==> IsMin(lo, s) && IsMax(hi, s)
    ensures IsMin(if s == [] || v < lo then v else lo, s + [v])
    ensures IsMax(if s == [] || v > hi then v else hi, s + [v])
  {
    var t := s + [v];
    assert t[|s|] == v;
    if s != [] {
      var i, j :| 0 <= i < |s| && s[i] == lo && 0 <= j < |s| && s[j] == hi;
      assert t[i] == lo && t[j] == hi;
    }
  }

  ghost predicate IsMin(x: real, s: seq<real>) { x in s && forall i :: 0 <= i < |s| ==> x <= s[i] }
  ghost predicate IsMax(x: real, s: seq<real>) { x in s && forall i :: 0 <= i < |s| ==> s[i] <= x }

  lemma FirstValue(v: real)
    ensures IsMean(v, [] + [v]) && Deviations([] + [v], v) == 0.0
  {
    Append([], v, v);
  }

  class RunningStatistics {
    var count: nat
    var min: real
    var max: real
    var mean: real
    var variance: real
    var meanLast: real
    var varianceLast: real
    /** All values added so far. */
    ghost var values: seq<real>

    /** The fields are the statistics of the values: `variance` is the sum of squared deviations. */
    ghost predicate Valid()
      reads this
    {
      && count == |values|
      && (count > 0 ==>
            && IsMin(min, values) && IsMax(max, values)
            && IsMean(mean, values)
            && variance == Deviations(values, mean))
    }

    constructor ()
      ensures Valid() && values == []
    {
      count, min, max, mean, variance, meanLast, varianceLast := 0, 0.0, 0.0, 0.0, 0.0, 0.0, 0.0;
      values := [];
    }

    method AddValue(value: real)
      requires Valid()
      modifies this
      ensures Valid() && values == old(values) + [value]
    {
      hide IsMin, IsMax, IsMean, Deviations, NextMean, Growth;
      count := count + 1;
      UpdateMin(value);
      UpdateMax(value);
      UpdateMean(value);
      UpdateVariance(value);
      ExtremesStep(values, value, old(min), old(max));
      if count == 1 {
        FirstValue(value);
        assert values == [];
      } else {
        WelfordStep(values, value, meanLast);
      }
      values := values + [value];
    }

    method UpdateMin(value: real)
      modifies this`min
      ensures min == if count == 1 || value < old(min) then value else old(min)
    {
      if count == 1 { min := value; } else if value < min { min := value; }
    }

    method UpdateMax(value: real)
      modifies this`max
      ensures max == if count == 1 || value > old(max) then value else old(max)
    {
      if count == 1 { max := value; } else if value > max { max := value; }
    }

    method UpdateMean(value: real)
      requires count >= 1
      modifies this`mean, this`meanLast
      ensures if count == 1 then mean == meanLast == value
              else meanLast == old(mean) && mean == NextMean(meanLast, value, count as real)
    {
      if count == 1 {
        mean, meanLast := value, value;
      } else {
        meanLast := mean;
        mean := meanLast + (value - meanLast) / count as real;
      }
    }

    method UpdateVariance(value: real)
      modifies this`variance, this`varianceLast
      ensures variance == if count == 1 then 0.0 else old(variance) + Growth(value, meanLast, mean)
    {
      if count == 1 {
        variance, varianceLast := 0.0, 0.0;
      } else {
        varianceLast := variance;
        variance := varianceLast + (value - meanLast) * (value - mean);
      }
    }
  }

  // ----- bins

  /** Conversion of a double to int: truncation toward zero. */
  function Trunc(x: real): (i: int) { if x >= 0.0 then x.Floor else -((-x).Floor) }

  /** The bin a value is routed to. */
  function BinOf(value: real, min: real, increment: real, bins: nat): (b: nat)
    requires increment > 0.0 && bins >= 1
    ensures b < bins
  {
    var bin := Trunc((value - min) / increment);
    if bins <= bin then bins - 1 else if bin < 0 then 0 else bin
  }

  lemma DivideBounds(x: real, d: real, k: int)
    requires d > 0.0
    ensures k as real <= x / d <==> k as real * d <= x
  {
    var q := x / d;
    assert q * d == x;
    if k as real <= q { assert (q - k as real) * d >= 0.0; }
    else { assert (k as real - q) * d > 0.0; }
  }

  /** Bin b holds [min + b * increment, min + (b + 1) * increment); the end bins take what lies outside. */
  lemma BinOfIsInterval(value: real, min: real, increment: real, bins: nat, b: nat)
    requires increment > 0.0 && bins >= 1 && b < bins
    ensures BinOf(value, min, increment, bins) == b <==>
            && (b > 0 ==> min + b as real * increment <= value)
            && (b < bins - 1 ==> value < min + (b + 1) as real * increment)
  {
    var x := value - min;
    DivideBounds(x, increment, b);
    DivideBounds(x, increment, b + 1);
  }

  /** The quotient can be converted to a 32-bit int. */
  predicate Convertible(x: real) { -0x8000_0000 <= Trunc(x) <= 0x7FFF_FFFF }

  /** One update: the value recorded, the value that chose the bin, and the bin. */
  datatype Sample = Sample(value: real, binValue: real, bin: nat)

  /** The bin is the one of its value, wherever the conversion to int is defined. */
  ghost predicate Proper(x: Sample, min: real, increment: real, bins: nat) {
    && x.bin < bins
    && (increment > 0.0 && Convertible((x.binValue - min) / increment) ==>
          x.bin == BinOf(x.binValue, min, increment, bins))
  }

  /** The values routed to bin `b`, in order. */
  function Routed(h: seq<Sample>, b: nat): (r: seq<real>) {
    if h == [] then []
    else
      var x := h[|h| - 1];
      Routed(h[..|h| - 1], b) + if x.bin == b then [x.value] else []
  }

  /** How many values the first `n` bins received. */
  function RoutedCount(h: seq<Sample>, n: nat): (c: nat) {
    if n == 0 then 0 else RoutedCount(h, n - 1) + |Routed(h, n - 1)|
  }

  lemma {:induction false} CountStep(h: seq<Sample>, n: nat)
    requires h != []
    ensures RoutedCount(h, n) == RoutedCount(h[..|h| - 1], n) + if h[|h| - 1].bin < n then 1 else 0
  {
    if n > 0 { CountStep(h, n - 1); }
  }

  /** No update is lost or counted twice: the bin counts add up to the number of updates. */
  lemma {:induction false} CountsAddUp(h: seq<Sample>, bins: nat)
    requires forall i :: 0 <= i < |h| ==> h[i].bin < bins
    ensures RoutedCount(h, bins) == |h|
  {
    if h == [] {
      NothingRouted(bins);
    } else {
      CountsAddUp(h[..|h| - 1], bins);
      CountStep(h, bins);
    }
  }

  lemma {:induction false} NothingRouted(n: nat)
    ensures RoutedCount([], n) == 0
  {
    if n > 0 { NothingRouted(n - 1); }
  }

  lemma RoutedAppend(h: seq<Sample>, x: Sample, b: nat)
    ensures Routed(h + [x], b) == Routed(h, b) + if x.bin == b then [x.value] else []
  {
    assert (h + [x])[..|h|] == h;
  }

  class BinStatistics {
    const binCount: nat
    const increment: real
    const min: real
    const max: real
    var bins: seq<RunningStatistics>
    /** All updates so far. */
    ghost var history: seq<Sample>

    ghost predicate Valid()
      reads this, bins
    {
      && binCount >= 1 && increment >= 0.0
      && |bins| == binCount
      && (forall i, j :: 0 <= i < j < |bins| ==> bins[i] != bins[j])
      && (forall b :: 0 <= b < |bins| ==> bins[b].Valid() && bins[b].values == Routed(history, b))
      && (forall i :: 0 <= i < |history| ==> Proper(history[i], min, increment, binCount))
    }

    /** The part of the constructor that runs when its two checks pass. */
    constructor (binCount: nat, thresholdMin: real, thresholdMax: real)
      requires binCount >= 1 && thresholdMin <= thresholdMax
      ensures Valid() && fresh(bins) && history == []
      ensures this.binCount == binCount && min == thresholdMin && max == thresholdMax
      ensures increment * binCount as real == thresholdMax - thresholdMin
    {
      this.binCount := binCount;
      increment := (thresholdMax - thresholdMin) / binCount as real;
      min := thresholdMin;
      max := thresholdMax;
      bins := [];
      history := [];
      new;
      for i := 0 to binCount
        invariant |bins| == i && fresh(bins) && history == []
        invariant forall b :: 0 <= b < |bins| ==> bins[b].Valid() && bins[b].values == []
        invariant forall a, b :: 0 <= a < b < |bins| ==> bins[a] != bins[b]
      {
        var r := new RunningStatistics();
        bins := bins + [r];
      }
    }

    /** The clamped bin of a value; an undefined conversion may yield any int. */
    method FindBinFromValue(value: real) returns (bin: nat)
      requires Valid()
      ensures Proper(Sample(value, value, bin), min, increment, binCount)
    {
      var i: int := *;
      if increment > 0.0 && Convertible((value - min) / increment) { i := Trunc((value - min) / increment); }
      if binCount <= i { i := binCount - 1; } else if i < 0 { i := 0; }
      bin := i;
    }

    /** The value goes to the bin of `binCalcValue`, and only that bin changes. */
    method UpdateValueForBin(value: real, binCalcValue: real)
      requires Valid()
      modifies this`history, bins
      ensures Valid() && bins == old(bins)
      ensures exists bin :: history == old(history) + [Sample(value, binCalcValue, bin)]
    {
      hide BinOf, Routed;
      var bin := FindBinFromValue(binCalcValue);
      Record(value, binCalcValue, bin);
    }

    method Record(value: real, binCalcValue: real, bin: nat)
      requires Valid() && Proper(Sample(value, binCalcValue, bin), min, increment, binCount)
      modifies this`history, bins
      ensures Valid() && bins == old(bins)
      ensures history == old(history) + [Sample(value, binCalcValue, bin)]
    {
      hide BinOf, Routed;
      var x := Sample(value, binCalcValue, bin);
      bins[bin].AddValue(value);
      forall b | 0 <= b < |bins| ensures bins[b].Valid() && bins[b].values == Routed(history + [x], b) {
        RoutedAppend(history, x, b);
      }
      history := history + [x];
    }

    method Update(value: real)
      requires Valid()
      modifies this`history, bins
      ensures Valid() && bins == old(bins)
      ensures exists bin :: history == old(history) + [Sample(value, value, bin)]
    {
      UpdateValueForBin(value, value);
    }
  }

  datatype Made = Made(stats: BinStatistics) | Rejected(reason: string)

  /** The constructor's checks; equal thresholds pass them. */
  method MakeBinStatistics(bins: nat, thresholdMin: real, thresholdMax: real) returns (r: Made)
    ensures r.Rejected? <==> bins == 0 || thresholdMin > thresholdMax
    ensures r.Made? ==>
      && fresh(r.stats) && r.stats.Valid() && fresh(r.stats.bins) && r.stats.history == []
      && r.stats.binCount == bins && r.stats.min == thresholdMin && r.stats.max == thresholdMax
      && r.stats.increment * bins as real == thresholdMax - thresholdMin
  {
    if bins == 0 { return Rejected("bin count is 0, should be at least 1"); }
    if thresholdMin > thresholdMax { return Rejected("threshold_min exceeds threshold_max"); }
    var stats := new BinStatistics(bins, thresholdMin, thresholdMax);
    r := Made(stats);
  }

  /** The samples are the first `n` pairs. */
  ghost predicate Samples(h: seq<Sample>, data: seq<real>, dataBins: seq<real>, n: nat)
    requires n <= |data| && n <= |dataBins|
  {
    |h| == n && forall i :: 0 <= i < n ==> h[i].value == data[i] && h[i].binValue == dataBins[i]
  }

  /** The value lies in the `b`-th of `n` equal parts of [lo, hi), the first and last also taking what is outside. */
  ghost predicate InPart(x: real, lo: real, hi: real, n: nat, b: nat) {
    && b < n
    && (b > 0 ==> b as real * (hi - lo) <= (x - lo) * n as real)
    && (b < n - 1 ==> (x - lo) * n as real < (b + 1) as real * (hi - lo))
  }

  /** Counted in parts from `lo`, the value is within what an int can be truncated from. */
  ghost predicate Reachable(x: real, lo: real, hi: real, n: nat) {
    -2147483649.0 * (hi - lo) < (x - lo) * n as real < 2147483648.0 * (hi - lo)
  }

  lemma Scaled(a: real, b: real, n: real)
    requires n > 0.0
    ensures a <= b <==> a * n <= b * n
    ensures a < b <==> a * n < b * n
  {
    if a < b { assert (b - a) * n > 0.0; }
    if a > b { assert (a - b) * n > 0.0; }
  }

  lemma PartBound(k: int, inc: real, n: real, width: real, y: real)
    requires n > 0.0 && inc * n == width
    ensures k as real * inc <= y <==> k as real * width <= y * n
    ensures y < k as real * inc <==> y * n < k as real * width
  {
    Scaled(k as real * inc, y, n);
    Scaled(y, k as real * inc, n);
    assert k as real * inc * n == k as real * width;
  }

  lemma IntRange(q: real)
    ensures Convertible(q) <==> -2147483649.0 < q < 2147483648.0
  {}

  lemma ReachableConverts(x: real, lo: real, hi: real, n: nat, inc: real)
    requires n >= 1 && lo < hi && inc * n as real == hi - lo
    ensures inc > 0.0 && (Reachable(x, lo, hi, n) <==> Convertible((x - lo) / inc))
  {
    Scaled(0.0, inc, n as real);
    var q := (x - lo) / inc;
    Quotient(x - lo, inc);
    var w, y := hi - lo, (x - lo) * n as real;
    assert q * w == y by { assert q * (inc * n as real) == inc * q * n as real; }
    hide Convertible, Reachable;
    Bounded(q, w, y);
    IntRange(q);
    ReachableIs(x, lo, hi, n, w, y);
  }

  lemma Bounded(q: real, w: real, y: real)
    requires w > 0.0 && q * w == y
    ensures -2147483649.0 < q < 2147483648.0 <==> -2147483649.0 * w < y < 2147483648.0 * w
  {
    Scaled(q, 2147483648.0, w);
    Scaled(-2147483649.0, q, w);
  }

  lemma ReachableIs(x: real, lo: real, hi: real, n: nat, w: real, y: real)
    requires w == hi - lo && y == (x - lo) * n as real
    ensures Reachable(x, lo, hi, n) <==> -2147483649.0 * w < y < 2147483648.0 * w
  {}

  /** The bin of a value, from the thresholds and the number of bins alone. */
  lemma ProperIsPart(x: Sample, lo: real, hi: real, n: nat, inc: real, b: nat)
    requires n >= 1 && lo < hi && inc * n as real == hi - lo && Reachable(x.binValue, lo, hi, n)
    requires Proper(x, lo, inc, n)
    ensures x.bin == b <==> InPart(x.binValue, lo, hi, n, b)
  {
    hide BinOf, Convertible;
    ReachableConverts(x.binValue, lo, hi, n, inc);
    if b < n {
      BinOfIsInterval(x.binValue, lo, inc, n, b);
      PartBound(b, inc, n as real, hi - lo, x.binValue - lo);
      PartBound(b + 1, inc, n as real, hi - lo, x.binValue - lo);
    }
  }

  /** Every bin ends with exactly the statistics of the data routed to it, and no datum is lost. */
  method ComputeBinStatisticsFromVectors(data: seq<real>, dataBins: seq<real>, binCount: nat,
                                         binMin: real, binMax: real, elements: nat)
    returns (r: Made)
    requires elements <= |data| && elements <= |dataBins|
    ensures r.Rejected? <==> binCount == 0 || binMin > binMax
    ensures r.Made? ==>
      && r.stats.Valid() && Samples(r.stats.history, data, dataBins, elements)
      && r.stats.binCount == binCount && r.stats.min == binMin && r.stats.max == binMax
      && r.stats.increment * binCount as real == binMax - binMin
      && RoutedCount(r.stats.history, binCount) == elements
      && (binMin < binMax ==>
            forall i, b: nat :: 0 <= i < elements && Reachable(dataBins[i], binMin, binMax, binCount) ==>
              (r.stats.history[i].bin == b <==> InPart(dataBins[i], binMin, binMax, binCount, b)))
  {
    hide BinOf, Routed, Reachable, InPart;
    r := MakeBinStatistics(binCount, binMin, binMax);
    if r.Rejected? { return; }
    var stats := r.stats;
    for i := 0 to elements
      invariant stats.Valid() && fresh(stats) && fresh(stats.bins)
      invariant Samples(stats.history, data, dataBins, i)
    {
      stats.UpdateValueForBin(data[i], dataBins[i]);
    }
    CountsAddUp(stats.history, binCount);
    if binMin < binMax {
      forall i, b: nat | 0 <= i < elements && Reachable(dataBins[i], binMin, binMax, binCount)
        ensures stats.history[i].bin == b <==> InPart(dataBins[i], binMin, binMax, binCount, b)
      {
        ProperIsPart(stats.history[i], binMin, binMax, binCount, stats.increment, b);
      }
    }
  }
}
