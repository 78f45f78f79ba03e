/**
 * The successive generations of chunks of one sort, from the loaded input to the split output,
 * and what each chunk of a generation must hold.
 */
module Tiers {
  import opened Records
  import opened KeyNames
  import Sorting

  function Pow2(p: nat): (n: nat)
    ensures n >= 1
  {
    if p == 0 then 1 else 2 * Pow2(p - 1)
  }

  lemma {:induction false} Pow2Mono(a: nat, b: nat)
    requires a <= b
    ensures Pow2(a) <= Pow2(b)
  {
    if a < b { Pow2Mono(a, b - 1); }
  }

  /** The loop counts how often the number of chunks can be halved: its binary logarithm, rounded down. */
  method GetFinalMergePhase(n: nat) returns (phase: nat)
    ensures n == 0 ==> phase == 0
    ensures n >= 1 ==> Pow2(phase) <= n < Pow2(phase + 1)
  {
    phase := 0;
    var chunks := n;
    while chunks > 1
      invariant n == 0 ==> chunks == phase == 0
      invariant n >= 1 ==> chunks >= 1 && chunks * Pow2(phase) <= n < (chunks + 1) * Pow2(phase)
    {
      Halving(n, chunks, Pow2(phase));
      phase := phase + 1;
      chunks := chunks / 2;
    }
  }

  lemma Halving(n: nat, k: nat, p: nat)
    requires k * p <= n < (k + 1) * p
    ensures k / 2 * (2 * p) <= n < (k / 2 + 1) * (2 * p)
  {
    var h := k / 2;
    assert h * (2 * p) == 2 * h * p && (h + 1) * (2 * p) == (2 * h + 2) * p;
    assert 2 * h * p <= k * p && (k + 1) * p <= (2 * h + 2) * p by {
      Larger(2 * h, k, p);
      Larger(k + 1, 2 * h + 2, p);
    }
  }

  lemma Larger(a: nat, b: nat, p: nat)
    requires a <= b
    ensures a * p <= b * p
  {}

  /** On a power of two the logarithm is exact. */
  lemma LogarithmExact(p: nat, phase: nat)
    requires Pow2(phase) <= Pow2(p) < Pow2(phase + 1)
    ensures phase == p
  {
    if phase < p { Pow2Mono(phase + 1, p); }
    if p < phase { Pow2Mono(p + 1, phase); }
  }

  /** A sort of `Pow2(phases)` chunks of `records` records each; `input` is what was loaded. */
  datatype Config = Config(phases: nat, records: nat, input: seq<seq<Record>>)
  {
    ghost predicate Valid() {
      && phases >= 1
      && records >= 1
      && |input| == Pow2(phases)
      && (forall i :: 0 <= i < |input| ==> |input[i]| == records)
    }

    function Chunks(): (n: nat) ensures n >= 1 { Pow2(phases) }
  }

  /*
   * Tier 0 is the input "L0chunkX", tier 1 the quicksorted "L0chunkXSorted", tier p + 1 the result
   * "LpchunkX" of merge phase p, and tier phases + 2 the split output.  Merge phase p reads tier p
   * and writes tier p + 1.
   */
  function TierKey(t: nat, i: nat): (k: Key) {
    if t == 0 then Chunk(0, i, false) else if t == 1 then Chunk(0, i, true) else Chunk(t - 1, i, false)
  }

  function TierOf(k: Key): (t: nat) {
    if k.sorted then 1 else if k.level == 0 then 0 else k.level + 1
  }

  /** The `level` argument that names a tier in `stabilize_PM` and `load_from_PM`. */
  function LevelArg(t: nat): (level: int)
    ensures level >= -1
  {
    if t == 0 then 0 else if t == 1 then -1 else t - 1
  }

  function TierSize(c: Config, t: nat): (n: nat) {
    if t == 0 || t > c.phases + 1 then c.Chunks() else Pow2(c.phases + 1 - t)
  }

  ghost predicate InTier(c: Config, k: Key, t: nat) {
    k.index < TierSize(c, t) && k == TierKey(t, k.index)
  }

  function TierKeys(c: Config, t: nat): (ks: set<Key>) {
    set i | 0 <= i < TierSize(c, t) :: TierKey(t, i)
  }

  lemma TierHalves(c: Config, p: nat)
    requires 1 <= p <= c.phases
    ensures TierSize(c, p) == 2 * TierSize(c, p + 1)
  {}

  lemma InTierIsMember(c: Config, k: Key, t: nat)
    ensures InTier(c, k, t) <==> k in TierKeys(c, t)
    ensures InTier(c, k, t) ==> TierOf(k) == t
  {}

  /** Tiers close to each other are told apart by the substring test of `stabilize_PM`. */
  lemma EraseSelectsOtherTiers(c: Config, k: Key, t: nat, u: nat)
    requires InTier(c, k, u) && u <= t + 2
    ensures ShouldErase(k, LevelArg(t)) <==> u != t
  {
    ShouldEraseExactly(k, LevelArg(t));
  }

  ghost function Block(c: Config, lo: nat, hi: nat): (m: multiset<Record>)
    requires lo <= hi <= |c.input|
  {
    multiset(Flatten(c.input[lo..hi]))
  }

  lemma BlockConcat(c: Config, lo: nat, mid: nat, hi: nat)
    requires lo <= mid <= hi <= |c.input|
    ensures Block(c, lo, hi) == Block(c, lo, mid) + Block(c, mid, hi)
  {
    hide Flatten;
    FlattenConcat(c.input[lo..mid], c.input[mid..hi]);
    assert c.input[lo..hi] == c.input[lo..mid] + c.input[mid..hi];
  }

  lemma BlockOne(c: Config, i: nat)
    requires i < |c.input|
    ensures Block(c, i, i + 1) == multiset(c.input[i])
  {
    var one := c.input[i..i + 1];
    assert one[..0] == [] && one[0] == c.input[i];
    assert Flatten(one) == Flatten(one[..0]) + one[0];
  }

  /** All input records, with multiplicity. */
  ghost function Everything(c: Config): (m: multiset<Record>) {
    multiset(Flatten(c.input))
  }

  /** `v` is what chunk `i` of level `p` must be: its input records, sorted. */
  ghost predicate Good(c: Config, p: nat, i: nat, v: seq<Record>) {
    && (i + 1) * Pow2(p) <= |c.input|
    && Sorted(v)
    && multiset(v) == Block(c, i * Pow2(p), (i + 1) * Pow2(p))
  }

  lemma GoodFromSorted(c: Config, i: nat, v: seq<Record>)
    requires i < |c.input| && Sorted(v) && multiset(v) == multiset(c.input[i])
    ensures Good(c, 0, i, v)
  {
    BlockOne(c, i);
    assert i * Pow2(0) == i && (i + 1) * Pow2(0) == i + 1;
  }

  lemma DoublingIndex(i: nat, p: nat)
    ensures (2 * i) * Pow2(p) == i * Pow2(p + 1)
    ensures (2 * i + 1) * Pow2(p) == i * Pow2(p + 1) + Pow2(p)
    ensures (2 * i + 2) * Pow2(p) == (i + 1) * Pow2(p + 1)
  {}

  /** Merging neighbours of level `p` gives the chunk of level `p + 1` over both. */
  lemma GoodMerge(c: Config, p: nat, i: nat, a: seq<Record>, b: seq<Record>)
    requires Good(c, p, 2 * i, a) && Good(c, p, 2 * i + 1, b)
    ensures Good(c, p + 1, i, Sorting.Merge(a, b))
  {
    hide Sorting.Merge, Pow2, Sorted, Block;
    Sorting.MergeHolds(a, b);
    Sorting.MergeSorts(a, b);
    DoublingIndex(i, p);
    BlockConcat(c, i * Pow2(p + 1), i * Pow2(p + 1) + Pow2(p), (i + 1) * Pow2(p + 1));
  }

  /** The single chunk of the last level holds every input record, sorted. */
  lemma GoodTop(c: Config, m: seq<Record>)
    requires c.Valid() && Good(c, c.phases, 0, m)
    ensures Sorted(m) && multiset(m) == Everything(c)
    ensures |m| == c.Chunks() * c.records
  {
    assert 0 * Pow2(c.phases) == 0 && 1 * Pow2(c.phases) == Pow2(c.phases);
    assert c.input[0..Pow2(c.phases)] == c.input;
    FlattenLength(c.input, c.records);
    assert |m| == |multiset(m)| == |multiset(Flatten(c.input))| == |Flatten(c.input)|;
  }

  lemma {:induction false} FlattenLength(s: seq<seq<Record>>, n: nat)
    requires forall i :: 0 <= i < |s| ==> |s[i]| == n
    ensures |Flatten(s)| == |s| * n
  {
    if s != [] {
      hide Flatten;
      FlattenLength(s[..|s| - 1], n);
      FlattenLast(s);
      assert |s| * n == (|s| - 1) * n + n;
    }
  }

  lemma SliceInside(j: nat, n: nat, r: nat)
    requires j < n
    ensures j * r + r <= n * r
  {
    var d := n - j - 1;
    assert n * r == (j + 1 + d) * r == j * r + r + d * r;
  }

  /** Output chunk `i` receives records i * r up to (i + 1) * r of the merged chunk. */
  ghost predicate IsSlice(m: seq<Record>, r: nat, i: nat, v: seq<Record>) {
    i * r + r <= |m| && v == m[i * r..i * r + r]
  }

  ghost predicate AreSlices(m: seq<Record>, r: nat, outs: seq<seq<Record>>) {
    forall i :: 0 <= i < |outs| ==> IsSlice(m, r, i, outs[i])
  }

  lemma {:induction false} SlicesFlatten(m: seq<Record>, r: nat, outs: seq<seq<Record>>)
    requires AreSlices(m, r, outs)
    ensures |outs| * r <= |m| && Flatten(outs) == m[..|outs| * r]
  {
    hide Flatten;
    if outs == [] {
      FlattenEmpty();
    } else {
      var n := |outs| - 1;
      var a := n * r;
      SlicesFlatten(m, r, outs[..n]);
      assert IsSlice(m, r, n, outs[n]);
      assert a + r == |outs| * r;
      SplitPrefix(m, a, a + r);
      FlattenLast(outs);
    }
  }

  lemma FlattenEmpty()
    ensures Flatten([]) == []
  {}

  lemma FlattenLast(s: seq<seq<Record>>)
    requires s != []
    ensures Flatten(s) == Flatten(s[..|s| - 1]) + s[|s| - 1]
  {}

  lemma SplitPrefix(m: seq<Record>, a: nat, b: nat)
    requires a <= b <= |m|
    ensures m[..a] + m[a..b] == m[..b]
  {}

  /** Splitting loses nothing: the output chunks, in order, are the whole input, sorted. */
  lemma SplitIsWhole(c: Config, m: seq<Record>, outs: seq<seq<Record>>)
    requires c.Valid() && Good(c, c.phases, 0, m)
    requires AreSlices(m, c.records, outs) && |outs| == c.Chunks()
    ensures Sorted(Flatten(outs)) && multiset(Flatten(outs)) == Everything(c)
  {
    hide Flatten, Pow2;
    GoodTop(c, m);
    SlicesFlatten(m, c.records, outs);
    assert m[..|m|] == m;
  }
}
