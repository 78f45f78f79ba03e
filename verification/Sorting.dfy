/** In-place quicksort and the two-way merge. */
module Sorting {
  import opened Records

  /** `t` is `s` with the records of [lo, hi) rearranged and everything else in place. */
  ghost predicate Rearranged(s: seq<Record>, t: seq<Record>, lo: int, hi: int)
    requires 0 <= lo <= hi <= |s|
  {
    && |s| == |t|
    && s[..lo] == t[..lo]
    && s[hi..] == t[hi..]
    && multiset(s[lo..hi]) == multiset(t[lo..hi])
  }

  lemma RearrangedTrans(s: seq<Record>, t: seq<Record>, u: seq<Record>, lo: int, hi: int)
    requires 0 <= lo <= hi <= |s|
    requires Rearranged(s, t, lo, hi) && Rearranged(t, u, lo, hi)
    ensures Rearranged(s, u, lo, hi)
  {}

  /** A rearrangement of an inner range is one of any range around it. */
  lemma RearrangedWiden(s: seq<Record>, t: seq<Record>, lo: int, hi: int, lo': int, hi': int)
    requires 0 <= lo' <= lo <= hi <= hi' <= |s|
    requires Rearranged(s, t, lo, hi)
    ensures Rearranged(s, t, lo', hi')
  {
    assert s[lo'..hi'] == s[lo'..lo] + s[lo..hi] + s[hi..hi'];
    assert t[lo'..hi'] == t[lo'..lo] + t[lo..hi] + t[hi..hi'];
    assert s[lo'..lo] == s[..lo][lo'..] && t[lo'..lo] == t[..lo][lo'..];
    assert s[hi..hi'] == s[hi..][..hi' - hi] && t[hi..hi'] == t[hi..][..hi' - hi];
    assert s[..lo'] == s[..lo][..lo'] && t[..lo'] == t[..lo][..lo'];
    assert s[hi'..] == s[hi..][hi' - hi..] && t[hi'..] == t[hi..][hi' - hi..];
  }

  /** A rearranged range holds only records the range held before. */
  lemma RearrangedMember(s: seq<Record>, t: seq<Record>, lo: int, hi: int, k: int) returns (k0: int)
    requires 0 <= lo <= hi <= |s|
    requires Rearranged(s, t, lo, hi)
    requires lo <= k < hi
    ensures lo <= k0 < hi && t[k] == s[k0]
  {
    assert t[lo..hi][k - lo] == t[k];
    assert t[k] in multiset(s[lo..hi]);
    var i :| 0 <= i < hi - lo && s[lo..hi][i] == t[k];
    k0 := lo + i;
  }

  function Swapped(s: seq<Record>, i: int, j: int): (t: seq<Record>)
    requires 0 <= i < |s| && 0 <= j < |s|
  {
    s[i := s[j]][j := s[i]]
  }

  lemma SwapRearranges(s: seq<Record>, lo: int, hi: int, i: int, j: int)
    requires 0 <= lo <= i < hi <= |s| && lo <= j < hi
    ensures Rearranged(s, Swapped(s, i, j), lo, hi)
  {
    var t := Swapped(s, i, j);
    var x, y := s[lo..hi], t[lo..hi];
    assert y == x[i - lo := x[j - lo]][j - lo := x[i - lo]];
  }

  method Swap(a: array<Record>, i: int, j: int)
    requires 0 <= i < a.Length && 0 <= j < a.Length
    modifies a
    ensures a[..] == Swapped(old(a[..]), i, j)
  {
    var tmp := a[i];
    a[i] := a[j];
    a[j] := tmp;
  }

  method MaxRecord(a: array<Record>, i: int, j: int) returns (k: int)
    requires 0 <= i < a.Length && 0 <= j < a.Length
    ensures k == i || k == j
    ensures SortKey(a[k]) >= SortKey(a[i]) && SortKey(a[k]) >= SortKey(a[j])
  {
    var less := IsSmaller(a[i], a[j]);
    k := if less then j else i;
  }

  /** On equal keys this keeps the second index, and `MaxRecord` the first. */
  method MinRecord(a: array<Record>, i: int, j: int) returns (k: int)
    requires 0 <= i < a.Length && 0 <= j < a.Length
    ensures k == i || k == j
    ensures SortKey(a[k]) <= SortKey(a[i]) && SortKey(a[k]) <= SortKey(a[j])
  {
    var less := IsSmaller(a[i], a[j]);
    k := if less then i else j;
  }

  /** The pivot's key is the median of the first, middle and last keys of the range. */
  ghost predicate IsMedian(m: nat, x: nat, y: nat, z: nat) {
    exists lo, hi :: lo <= m <= hi && multiset{x, y, z} == multiset{lo, m, hi}
  }

  /** The larger of the smaller two, capped by the third, is the median. */
  lemma MedianOfThree(x: nat, y: nat, z: nat, low: nat, high: nat, capped: nat, m: nat)
    requires (low == x && high == y && x <= y) || (low == y && high == x && y <= x)
    requires capped == if high <= z then high else z
    requires m == if low <= capped then capped else low
    ensures IsMedian(m, x, y, z)
  {
    if z <= low {
      assert z <= m <= high && multiset{x, y, z} == multiset{z, m, high};
    } else if high <= z {
      assert low <= m <= z && multiset{x, y, z} == multiset{low, m, z};
    } else {
      assert low <= m <= high && multiset{x, y, z} == multiset{low, m, high};
    }
  }

  method GetPivot(a: array<Record>, start: int, end: int) returns (k: int)
    requires 0 <= start <= end < a.Length
    ensures start <= k <= end
    ensures k == start || k == start + (end - start) / 2 || k == end
    ensures IsMedian(SortKey(a[k]), SortKey(a[start]), SortKey(a[start + (end - start) / 2]), SortKey(a[end]))
  {
    hide *;
    var middle := start + (end - start) / 2;
    var low := MinRecord(a, start, middle);
    var high := MaxRecord(a, start, middle);
    var capped := MinRecord(a, high, end);
    k := MaxRecord(a, low, capped);
    MedianOfThree(SortKey(a[start]), SortKey(a[middle]), SortKey(a[end]),
                  SortKey(a[low]), SortKey(a[high]), SortKey(a[capped]), SortKey(a[k]));
  }

  /** While `s[end]` is the pivot: [start, i] is smaller, (i, j) is not. */
  ghost predicate Split(s: seq<Record>, start: int, i: int, j: int, end: int)
    requires 0 <= start <= i + 1 <= j <= end < |s|
  {
    && (forall k :: start <= k <= i ==> SortKey(s[k]) < SortKey(s[end]))
    && (forall k :: i < k < j ==> SortKey(s[end]) <= SortKey(s[k]))
  }

  lemma SplitGrows(s: seq<Record>, start: int, i: int, j: int, end: int)
    requires 0 <= start <= i + 1 <= j < end < |s|
    requires Split(s, start, i, j, end)
    ensures SortKey(s[end]) <= SortKey(s[j]) ==> Split(s, start, i, j + 1, end)
    ensures SortKey(s[j]) < SortKey(s[end]) ==> Split(Swapped(s, i + 1, j), start, i + 1, j + 1, end)
  {
    hide SortKey;
  }

  /** The pivot at `p` is greater than everything before it in the range and no greater than the rest. */
  ghost predicate PlacedPivot(s: seq<Record>, start: int, p: int, end: int)
    requires 0 <= start <= p <= end < |s|
  {
    && (forall k :: start <= k < p ==> SortKey(s[k]) < SortKey(s[p]))
    && (forall k :: p < k <= end ==> SortKey(s[p]) <= SortKey(s[k]))
  }

  lemma SplitFinishes(s: seq<Record>, start: int, i: int, end: int)
    requires 0 <= start <= i + 1 <= end < |s|
    requires Split(s, start, i, end, end)
    ensures PlacedPivot(Swapped(s, i + 1, end), start, i + 1, end)
  {
    hide SortKey;
  }

  /** Moves the median-of-three pivot to its final place between smaller and not-smaller records. */
  method Partition(a: array<Record>, start: int, end: int) returns (p: int)
    requires 0 <= start < end < a.Length
    modifies a
    ensures start <= p <= end
    ensures PlacedPivot(a[..], start, p, end)
    ensures Rearranged(old(a[..]), a[..], start, end + 1)
  {
    hide *;
    var pivotInd := GetPivot(a, start, end);
    SwapRearranges(a[..], start, end + 1, pivotInd, end);
    Swap(a, pivotInd, end);
    ghost var s0 := a[..];
    var i := MoveSmallerLeft(a, start, end);
    ghost var s1 := a[..];
    SwapRearranges(s1, start, end + 1, i + 1, end);
    SplitFinishes(s1, start, i, end);
    Swap(a, i + 1, end);
    RearrangedTrans(s0, s1, a[..], start, end + 1);
    RearrangedTrans(old(a[..]), s0, a[..], start, end + 1);
    p := i + 1;
  }

  /** The loop of the partition, with the pivot parked at `end`. */
  method MoveSmallerLeft(a: array<Record>, start: int, end: int) returns (i: int)
    requires 0 <= start < end < a.Length
    modifies a
    ensures start - 1 <= i < end
    ensures Split(a[..], start, i, end, end)
    ensures Rearranged(old(a[..]), a[..], start, end + 1)
  {
    hide *;
    ghost var s0 := a[..];
    i := start - 1;
    SplitStarts(s0, start, end);
    for j := start to end
      invariant start - 1 <= i < j
      invariant Split(a[..], start, i, j, end)
      invariant Rearranged(s0, a[..], start, end + 1)
    {
      var less := IsSmaller(a[j], a[end]);
      ghost var s1 := a[..];
      SplitGrows(s1, start, i, j, end);
      if less {
        i := i + 1;
        SwapRearranges(s1, start, end + 1, i, j);
        Swap(a, i, j);
        RearrangedTrans(s0, s1, a[..], start, end + 1);
      }
    }
  }

  lemma SplitStarts(s: seq<Record>, start: int, end: int)
    requires 0 <= start <= end < |s|
    ensures Split(s, start, start - 1, start, end) && Rearranged(s, s, start, end + 1)
  {}

  method Quicksort(a: array<Record>, start: int, end: int)
    requires 0 <= start <= end + 1 <= a.Length
    modifies a
    ensures Rearranged(old(a[..]), a[..], start, end + 1)
    ensures Sorted(a[..][start..end + 1])
    decreases end - start
  {
    hide SortKey, PlacedPivot;
    if start < end {
      var p := Partition(a, start, end);
      ghost var s0 := a[..];
      Quicksort(a, start, p - 1);
      ghost var s1 := a[..];
      Quicksort(a, p + 1, end);
      ghost var s2 := a[..];
      SortedAroundPivot(s0, s1, s2, start, p, end);
      RearrangedTrans(old(a[..]), s0, s2, start, end + 1);
    }
  }

  /** Sorting both sides of a placed pivot sorts the whole range. */
  lemma SortedAroundPivot(s0: seq<Record>, s1: seq<Record>, s2: seq<Record>, start: int, p: int, end: int)
    requires 0 <= start <= p <= end < |s0|
    requires PlacedPivot(s0, start, p, end)
    requires Rearranged(s0, s1, start, p) && Sorted(s1[start..p])
    requires Rearranged(s1, s2, p + 1, end + 1) && Sorted(s2[p + 1..end + 1])
    ensures Rearranged(s0, s2, start, end + 1) && Sorted(s2[start..end + 1])
  {
    hide *;
    RearrangedWiden(s0, s1, start, p, start, end + 1);
    RearrangedWiden(s1, s2, p + 1, end + 1, start, end + 1);
    RearrangedTrans(s0, s1, s2, start, end + 1);
    KeysAroundPivot(s0, s1, s2, start, p, end);
    RearrangedPrefix(s1, s2, p + 1, end + 1, start, p);
    SortedAppend(s2, start, p, end + 1);
  }

  lemma RearrangedPrefix(s: seq<Record>, t: seq<Record>, lo: int, hi: int, from: int, to: int)
    requires 0 <= from <= to <= lo <= hi <= |s|
    requires Rearranged(s, t, lo, hi)
    ensures |t| == |s| && s[from..to] == t[from..to]
  {
    assert s[from..to] == s[..lo][from..to] && t[from..to] == t[..lo][from..to];
  }

  lemma SortedAppend(s: seq<Record>, lo: int, p: int, hi: int)
    requires 0 <= lo <= p < hi <= |s|
    requires Sorted(s[lo..p]) && Sorted(s[p + 1..hi])
    requires forall k :: lo <= k < p ==> SortKey(s[k]) <= SortKey(s[p])
    requires forall k :: p < k < hi ==> SortKey(s[p]) <= SortKey(s[k])
    ensures Sorted(s[lo..hi])
  {
    hide SortKey;
    var a, b, t := s[lo..p], s[p + 1..hi], s[lo..hi];
    forall i, j | 0 <= i < j < |t| ensures SortKey(t[i]) <= SortKey(t[j]) {
      assert lo + j < p ==> t[i] == a[i] && t[j] == a[j];
      assert p < lo + i ==> t[i] == b[lo + i - p - 1] && t[j] == b[lo + j - p - 1];
    }
  }

  lemma KeysAroundPivot(s0: seq<Record>, s1: seq<Record>, s2: seq<Record>, start: int, p: int, end: int)
    requires 0 <= start <= p <= end < |s0|
    requires PlacedPivot(s0, start, p, end)
    requires Rearranged(s0, s1, start, p) && Rearranged(s1, s2, p + 1, end + 1)
    ensures |s2| == |s0|
    ensures forall k :: start <= k < p ==> SortKey(s2[k]) <= SortKey(s2[p])
    ensures forall k :: p < k < end + 1 ==> SortKey(s2[p]) <= SortKey(s2[k])
  {
    hide SortKey;
    assert s1[p] == s1[p..][0] == s0[p..][0] == s0[p];
    assert s2[p] == s2[..p + 1][p] == s1[..p + 1][p] == s1[p];
    forall k | start <= k < p ensures SortKey(s2[k]) <= SortKey(s2[p]) {
      assert s2[k] == s2[..p + 1][k] == s1[..p + 1][k] == s1[k];
      var k0 := RearrangedMember(s0, s1, start, p, k);
    }
    forall k | p < k < end + 1 ensures SortKey(s2[p]) <= SortKey(s2[k]) {
      var k0 := RearrangedMember(s1, s2, p + 1, end + 1, k);
      assert s1[k0] == s1[p..][k0 - p] == s0[p..][k0 - p] == s0[k0];
    }
  }

  /** What merging two chunks yields; the second chunk wins ties. */
  function Merge(a: seq<Record>, b: seq<Record>): (m: seq<Record>)
    decreases |a| + |b|
  {
    if b == [] then a
    else if a == [] then b
    else if SortKey(a[0]) < SortKey(b[0]) then [a[0]] + Merge(a[1..], b)
    else [b[0]] + Merge(a, b[1..])
  }

  lemma {:induction false} MergeHolds(a: seq<Record>, b: seq<Record>)
    ensures multiset(Merge(a, b)) == multiset(a) + multiset(b)
    ensures |Merge(a, b)| == |a| + |b|
    decreases |a| + |b|
  {
    if a != [] && b != [] {
      hide SortKey;
      if SortKey(a[0]) < SortKey(b[0]) {
        MergeHolds(a[1..], b);
        assert a == [a[0]] + a[1..];
      } else {
        MergeHolds(a, b[1..]);
        assert b == [b[0]] + b[1..];
      }
    }
  }

  ghost predicate AtLeast(k: nat, s: seq<Record>) {
    forall i :: 0 <= i < |s| ==> k <= SortKey(s[i])
  }

  lemma {:induction false} MergeAtLeast(k: nat, a: seq<Record>, b: seq<Record>)
    requires AtLeast(k, a) && AtLeast(k, b)
    ensures AtLeast(k, Merge(a, b))
  {
    MergeHolds(a, b);
    var m := Merge(a, b);
    forall i | 0 <= i < |m| ensures k <= SortKey(m[i]) {
      assert m[i] in multiset(m);
      assert m[i] in multiset(a) || m[i] in multiset(b);
    }
  }

  lemma {:induction false} MergeSorts(a: seq<Record>, b: seq<Record>)
    requires Sorted(a) && Sorted(b)
    ensures Sorted(Merge(a, b))
    decreases |a| + |b|
  {
    if a != [] && b != [] {
      if SortKey(a[0]) < SortKey(b[0]) {
        MergeSorts(a[1..], b);
        MergeAtLeast(SortKey(a[0]), a[1..], b);
      } else {
        MergeSorts(a, b[1..]);
        MergeAtLeast(SortKey(b[0]), a, b[1..]);
      }
    }
  }

  /** `d` is the part of the merge already written, with `j` and `k` records consumed. */
  ghost predicate MergedSoFar(a: seq<Record>, b: seq<Record>, d: seq<Record>, j: nat, k: nat)
    requires j <= |a| && k <= |b|
  {
    Merge(a, b) == d + Merge(a[j..], b[k..])
  }

  lemma MergeAdvances(a: seq<Record>, b: seq<Record>, d: seq<Record>, j: nat, k: nat)
    requires j <= |a| && k <= |b| && MergedSoFar(a, b, d, j, k)
    ensures j < |a| && (k == |b| || SortKey(a[j]) < SortKey(b[k])) ==> MergedSoFar(a, b, d + [a[j]], j + 1, k)
    ensures k < |b| && (j == |a| || (j < |a| && SortKey(a[j]) >= SortKey(b[k]))) ==>
              MergedSoFar(a, b, d + [b[k]], j, k + 1)
  {
    hide SortKey;
    if j < |a| { assert a[j..] == [a[j]] + a[j + 1..]; }
    if k < |b| { assert b[k..] == [b[k]] + b[k + 1..]; }
  }

  /**
   * Merges two source chunks of `n` records into a destination of `2 * n`.  The source's `for`
   * keeps counting inside its two drain loops; `i == j + k` holds through all three.
   */
  method ChunkMerge(dst: array<Record>, src1: array<Record>, src2: array<Record>, n: nat)
    requires n <= src1.Length && n <= src2.Length && 2 * n <= dst.Length
    requires dst != src1 && dst != src2
    modifies dst
    ensures dst[..2 * n] == Merge(src1[..n], src2[..n])
    ensures dst[2 * n..] == old(dst[2 * n..])
  {
    hide SortKey, MergedSoFar;
    ghost var a, b := src1[..n], src2[..n];
    MergeStarts(a, b);
    var i, j, k := 0, 0, 0;
    while i < 2 * n
      invariant i == j + k && j <= n && k <= n
      invariant dst[2 * n..] == old(dst[2 * n..])
      invariant MergedSoFar(a, b, dst[..i], j, k)
    {
      MergeAdvances(a, b, dst[..i], j, k);
      if k == n {
        while j < n
          invariant i == j + k && j <= n && k == n
          invariant dst[2 * n..] == old(dst[2 * n..])
          invariant MergedSoFar(a, b, dst[..i], j, k)
        {
          MergeAdvances(a, b, dst[..i], j, k);
          Put(dst, i, src1[j], 2 * n);
          i, j := i + 1, j + 1;
        }
        MergeEnds(a, b, dst[..i]);
        return;
      }
      if j == n {
        while k < n
          invariant i == j + k && k <= n && j == n
          invariant dst[2 * n..] == old(dst[2 * n..])
          invariant MergedSoFar(a, b, dst[..i], j, k)
        {
          MergeAdvances(a, b, dst[..i], j, k);
          Put(dst, i, src2[k], 2 * n);
          i, k := i + 1, k + 1;
        }
        MergeEnds(a, b, dst[..i]);
        return;
      }
      var less := IsSmaller(src1[j], src2[k]);
      if less {
        Put(dst, i, src1[j], 2 * n);
        j := j + 1;
      } else {
        Put(dst, i, src2[k], 2 * n);
        k := k + 1;
      }
      i := i + 1;
    }
    MergeEnds(a, b, dst[..i]);
  }

  lemma MergeStarts(a: seq<Record>, b: seq<Record>)
    ensures MergedSoFar(a, b, [], 0, 0)
  {
    assert a[0..] == a && b[0..] == b;
  }

  lemma MergeEnds(a: seq<Record>, b: seq<Record>, d: seq<Record>)
    requires MergedSoFar(a, b, d, |a|, |b|)
    ensures d == Merge(a, b)
  {}

  /** One record written at `i` below `bound`: the prefix grows by it, the rest past `bound` stays. */
  method Put(dst: array<Record>, i: nat, r: Record, bound: nat)
    requires i < bound <= dst.Length
    modifies dst
    ensures dst[..i + 1] == old(dst[..i]) + [r]
    ensures dst[bound..] == old(dst[bound..])
  {
    dst[i] := r;
  }
}
