/** Task 1: the sort in RAM, with its buffers allocated, renamed and freed one by one. */
module Task1 {
  import opened Records
  import opened KeyNames
  import opened Tiers
  import opened Pool
  import Sorting
  import Task2
  import Task3

  /** The `data_map` of buffers, and which buffers are allocated and not yet freed. */
  class Ram {
    var dataMap: map<Key, array<Record>>
    ghost var live: set<array<Record>>

    /** Every buffer in the map is live, every live buffer is in the map, and no two keys share one. */
    ghost predicate Valid()
      reads this
    {
      && live == dataMap.Values
      && (forall k, l :: k in dataMap && l in dataMap && k != l ==> dataMap[k] != dataMap[l])
    }

    ghost function Contents(): (pm: Pm)
      reads this, dataMap.Values
      ensures pm.Keys == dataMap.Keys
    {
      map k | k in dataMap :: dataMap[k][..]
    }

    constructor ()
      ensures Valid() && dataMap == map[] && Contents() == map[] && live == {}
    {
      dataMap := map[];
      live := {};
    }

    /** `insert` of a freshly allocated buffer. */
    method Insert(k: Key, a: array<Record>)
      requires Valid() && k !in dataMap && a !in live
      modifies this
      ensures Valid() && dataMap == old(dataMap)[k := a] && live == old(live) + {a}
      ensures Contents() == old(Contents())[k := a[..]]
    {
      dataMap := dataMap[k := a];
      live := live + {a};
      ValuesAdd(old(dataMap), k, a);
    }

    /** `free` followed by `erase`. */
    method FreeAndErase(k: Key)
      requires Valid() && k in dataMap
      modifies this
      ensures Valid() && dataMap == old(dataMap) - {k} && live == old(live) - {old(dataMap)[k]}
      ensures Contents() == old(Contents()) - {k}
    {
      live := live - {dataMap[k]};
      dataMap := dataMap - {k};
      ValuesRemove(old(dataMap), k);
    }

    /** The buffer stays where it is; its key changes. */
    method Rename(k: Key, l: Key)
      requires Valid() && k in dataMap && l !in dataMap
      modifies this
      ensures Valid() && live == old(live) && dataMap == (old(dataMap) - {k})[l := old(dataMap)[k]]
      ensures Contents() == (old(Contents()) - {k})[l := old(Contents())[k]]
    {
      var a := dataMap[k];
      dataMap := dataMap[l := a] - {k};
      ValuesRemove(old(dataMap), k);
      ValuesAdd(old(dataMap) - {k}, l, a);
      assert dataMap == (old(dataMap) - {k})[l := a];
    }
  }

  lemma ValuesAdd(m: map<Key, array<Record>>, k: Key, a: array<Record>)
    requires k !in m
    ensures m[k := a].Values == m.Values + {a}
  {
    var n := m[k := a];
    forall b | b in m.Values ensures b in n.Values {
      var l :| l in m && m[l] == b;
      assert l in n && n[l] == b;
    }
    assert k in n && n[k] == a;
  }

  lemma ValuesRemove(m: map<Key, array<Record>>, k: Key)
    requires k in m && (forall i, j :: i in m && j in m && i != j ==> m[i] != m[j])
    ensures (m - {k}).Values == m.Values - {m[k]}
  {
    var n := m - {k};
    forall b | b in m.Values && b != m[k] ensures b in n.Values {
      var l :| l in m && m[l] == b;
      assert l in n && n[l] == b;
    }
  }

  /** `create_sorted_chunk`: quicksort the buffer in place, then file it under the sorted name. */
  method CreateSortedChunk(r: Ram, k: Key, l: Key, records: nat)
    requires r.Valid() && k in r.dataMap && l !in r.dataMap && r.dataMap[k].Length == records
    modifies r, r.dataMap[k]
    ensures r.Valid() && r.live == old(r.live)
    ensures r.Contents().Keys == old(r.Contents()).Keys - {k} + {l}
    ensures Sorted(r.Contents()[l]) && multiset(r.Contents()[l]) == multiset(old(r.Contents())[k])
    ensures r.Contents() == (old(r.Contents()) - {k})[l := r.Contents()[l]]
    ensures r.dataMap == (old(r.dataMap) - {k})[l := old(r.dataMap)[k]]
  {
    var a := r.dataMap[k];
    ghost var before := a[..];
    Sorting.Quicksort(a, 0, records - 1);
    WholeRange(before, a[..]);
    assert r.Contents() == old(r.Contents())[k := a[..]];
    r.Rename(k, l);
  }

  lemma WholeRange(s: seq<Record>, t: seq<Record>)
    requires |s| == |t| && Sorting.Rearranged(s, t, 0, |s|) && Sorted(t[0..|s|])
    ensures Sorted(t) && multiset(s) == multiset(t)
  {
    assert s[0..|s|] == s && t[0..|s|] == t;
  }

  /** Fills a new buffer with the merge of two others. */
  method AllocateMerged(src1: array<Record>, src2: array<Record>, n: nat) returns (dst: array<Record>)
    requires src1.Length == n && src2.Length == n
    ensures fresh(dst) && dst.Length == 2 * n && dst[..] == Sorting.Merge(src1[..], src2[..])
  {
    hide Sorting.Merge;
    var blank: Record := RawRecord(seq(RECORD_SIZE, _ => 0));
    dst := new Record[2 * n](_ => blank);
    Sorting.ChunkMerge(dst, src1, src2, n);
    assert src1[..n] == src1[..] && src2[..n] == src2[..] && dst[..2 * n] == dst[..];
  }

  /** One merge: allocate the destination, merge, free both sources. */
  method MergePair(r: Ram, k1: Key, k2: Key, d: Key, n: nat)
    requires r.Valid() && k1 in r.dataMap && k2 in r.dataMap && k1 != k2 && d !in r.dataMap
    requires r.dataMap[k1].Length == n && r.dataMap[k2].Length == n
    modifies r
    ensures r.Valid() && d in r.dataMap && fresh(r.dataMap[d]) && r.dataMap[d].Length == 2 * n
    ensures r.dataMap == old(r.dataMap)[d := r.dataMap[d]] - {k1} - {k2}
    ensures r.Contents() ==
            old(r.Contents())[d := Sorting.Merge(old(r.Contents())[k1], old(r.Contents())[k2])] - {k1} - {k2}
  {
    hide Sorting.Merge;
    InsertMerged(r, k1, k2, d, n);
    FreePair(r, k1, k2);
  }

  method InsertMerged(r: Ram, k1: Key, k2: Key, d: Key, n: nat)
    requires r.Valid() && k1 in r.dataMap && k2 in r.dataMap && d !in r.dataMap
    requires r.dataMap[k1].Length == n && r.dataMap[k2].Length == n
    modifies r
    ensures r.Valid() && d in r.dataMap && fresh(r.dataMap[d]) && r.dataMap[d].Length == 2 * n
    ensures r.dataMap == old(r.dataMap)[d := r.dataMap[d]]
    ensures r.Contents() == old(r.Contents())[d := Sorting.Merge(old(r.Contents())[k1], old(r.Contents())[k2])]
  {
    hide Sorting.Merge;
    assert r.dataMap[k1] in r.live && r.dataMap[k2] in r.live;
    assert r.Contents()[k1] == r.dataMap[k1][..] && r.Contents()[k2] == r.dataMap[k2][..];
    hide Ram.Contents;
    var dst := AllocateMerged(r.dataMap[k1], r.dataMap[k2], n);
    r.Insert(d, dst);
  }

  method FreePair(r: Ram, k1: Key, k2: Key)
    requires r.Valid() && k1 in r.dataMap && k2 in r.dataMap && k1 != k2
    modifies r
    ensures r.Valid() && r.dataMap == old(r.dataMap) - {k1} - {k2} && r.Contents() == old(r.Contents()) - {k1} - {k2}
  {
    hide Ram.Contents, Ram.Valid;
    r.FreeAndErase(k1);
    r.FreeAndErase(k2);
  }

  /** Buffers of tier `t` hold records << (t - 1) records. */
  ghost predicate Sized(c: Config, m: map<Key, array<Record>>) {
    forall k :: k in m ==> m[k].Length == c.records * Task3.Width(TierOf(k))
  }

  lemma SortedOne(c: Config, pm: Pm, i: nat, v: seq<Record>)
    requires c.Valid() && i < c.Chunks() && Task3.SortPool(c, pm, i)
    requires TierKey(0, i) in pm && Sorted(v) && multiset(v) == multiset(pm[TierKey(0, i)])
    ensures Task3.SortPool(c, (pm - {TierKey(0, i)})[TierKey(1, i) := v], i + 1)
  {
    hide Task3.SortPoolExcept, Good, Sorted, Pow2;
    var raw, done := TierKey(0, i), TierKey(1, i);
    var pm1 := pm[done := v];
    GoodFromSorted(c, i, v);
    Task3.SortTouch(c, pm, i, done, v);
    Task3.SortTouch(c, pm1, i, raw, []);
    assert (pm - {raw})[done := v] == pm1 - {raw};
    Task3.SortSettled(c, pm1 - {raw}, i);
  }

  lemma SortPoolChunk(c: Config, pm: Pm, i: nat)
    requires i < c.Chunks() && Task3.SortPool(c, pm, i)
    ensures TierKey(0, i) in pm && TierKey(1, i) !in pm
  {
    hide Holds, Pow2;
  }

  /** Quicksorts every chunk in place; the map's keys go from tier 0 to tier 1 one by one. */
  method SortChunks(r: Ram, c: Config)
    requires c.Valid() && r.Valid() && Sized(c, r.dataMap) && Task3.SortPool(c, r.Contents(), 0)
    modifies r, r.dataMap.Values
    ensures r.Valid() && Sized(c, r.dataMap) && r.live == old(r.live)
    ensures Task3.SortPool(c, r.Contents(), c.Chunks())
  {
    hide Task3.SortPool, Pow2, Sorted;
    for i := 0 to c.Chunks()
      invariant r.Valid() && Sized(c, r.dataMap) && r.live == old(r.live)
      invariant Task3.SortPool(c, r.Contents(), i)
    {
      SortStep(r, c, i);
    }
  }

  method SortStep(r: Ram, c: Config, i: nat)
    requires c.Valid() && i < c.Chunks() && r.Valid() && Sized(c, r.dataMap) && Task3.SortPool(c, r.Contents(), i)
    modifies r, r.dataMap.Values
    ensures r.Valid() && Sized(c, r.dataMap) && r.live == old(r.live)
    ensures Task3.SortPool(c, r.Contents(), i + 1)
  {
    hide Task3.SortPool, Pow2, Sorted, Sized, Task3.Width;
    ghost var pm := r.Contents();
    SortPoolChunk(c, pm, i);
    SizedSort(c, r.dataMap, i);
    CreateSortedChunk(r, TierKey(0, i), TierKey(1, i), c.records);
    SortedOne(c, pm, i, r.Contents()[TierKey(1, i)]);
  }

  lemma SizedSort(c: Config, m: map<Key, array<Record>>, i: nat)
    requires Sized(c, m) && TierKey(0, i) in m
    ensures m[TierKey(0, i)].Length == c.records
    ensures Sized(c, (m - {TierKey(0, i)})[TierKey(1, i) := m[TierKey(0, i)]])
  {
    hide Task3.Width;
    Task3.WidthOne();
  }

  lemma MergedOne(c: Config, pm: Pm, p: nat, i: nat)
    requires c.Valid() && Task3.InPhase(c, p, i) && Task3.MergePool(c, pm, p, i)
    ensures TierKey(p, i) in pm && TierKey(p, i + 1) in pm && TierKey(p + 1, i / 2) !in pm
    ensures var d := Sorting.Merge(pm[TierKey(p, i)], pm[TierKey(p, i + 1)]);
      Task3.MergePool(c, pm[TierKey(p + 1, i / 2) := d] - {TierKey(p, i)} - {TierKey(p, i + 1)}, p, i + 2)
  {
    hide Task3.MergePoolExcept, Task3.MergePool, Good, Sorting.Merge, Pow2, Task3.SrcRight, Task3.DstRight;
    Task3.MergeArith(c, p, i);
    Task3.MergeSettled(c, pm, p, i);
    Task3.SrcRightPresent(c, pm, p, i);
    var k1, k2, k := TierKey(p, i), TierKey(p, i + 1), TierKey(p + 1, i / 2);
    var d := Sorting.Merge(pm[k1], pm[k2]);
    GoodMerge(c, p - 1, i / 2, pm[k1], pm[k2]);
    Task3.DstTouch(c, pm, p, i, d);
    var pm1 := pm[k := d];
    assert Task3.DstRight(c, pm1, p, i) by { DstIsRight(c, pm1, p, i, d); }
    Task3.EraseMergedSource(c, pm1, p, i, k1);
    Task3.EraseMergedSource(c, pm1 - {k1}, p, i, k2);
    Task3.PairDone(c, pm1 - {k1} - {k2}, p, i);
  }

  lemma DstIsRight(c: Config, pm: Pm, p: nat, i: nat, d: seq<Record>)
    requires 1 <= p <= c.phases && TierKey(p + 1, i / 2) in pm && pm[TierKey(p + 1, i / 2)] == d
    requires Good(c, p, i / 2, d)
    ensures Task3.DstRight(c, pm, p, i)
  {
    hide Good;
  }

  lemma WidthDoubles(c: Config, p: nat)
    requires p >= 1
    ensures c.records * Task3.Width(p + 1) == 2 * (c.records * Task3.Width(p))
  {
    assert Task3.Width(p + 1) == 2 * Task3.Width(p);
  }

  method MergeStep(r: Ram, c: Config, p: nat, i: nat)
    requires c.Valid() && Task3.InPhase(c, p, i)
    requires r.Valid() && Sized(c, r.dataMap) && Task3.MergePool(c, r.Contents(), p, i)
    modifies r
    ensures r.Valid() && Sized(c, r.dataMap) && Task3.MergePool(c, r.Contents(), p, i + 2)
    ensures forall a :: a in r.live ==> a in old(r.live) || fresh(a)
  {
    hide Task3.MergePool, Pow2, Sorting.Merge, Task3.Width, Sized, Tiers.TierSize;
    var k1, k2, d := TierKey(p, i), TierKey(p, i + 1), TierKey(p + 1, i / 2);
    MergedOne(c, r.Contents(), p, i);
    SizedPair(c, r.dataMap, p, i);
    MergePair(r, k1, k2, d, r.dataMap[k1].Length);
    SizedMerge(c, old(r.dataMap), r.dataMap, p, i);
    LiveAfterMerge(old(r.dataMap), r.dataMap, k1, k2, d);
  }

  lemma SizedPair(c: Config, m: map<Key, array<Record>>, p: nat, i: nat)
    requires Sized(c, m) && TierKey(p, i) in m && TierKey(p, i + 1) in m
    ensures m[TierKey(p, i)].Length == m[TierKey(p, i + 1)].Length == c.records * Task3.Width(p)
  {
    hide Task3.Width;
  }

  lemma SizedMerge(c: Config, m: map<Key, array<Record>>, m': map<Key, array<Record>>, p: nat, i: nat)
    requires p >= 1 && Sized(c, m) && TierKey(p + 1, i / 2) in m'
    requires m' == m[TierKey(p + 1, i / 2) := m'[TierKey(p + 1, i / 2)]] - {TierKey(p, i)} - {TierKey(p, i + 1)}
    requires m'[TierKey(p + 1, i / 2)].Length == 2 * (c.records * Task3.Width(p))
    ensures Sized(c, m')
  {
    hide Task3.Width;
    WidthDoubles(c, p);
  }

  lemma LiveAfterMerge(m: map<Key, array<Record>>, m': map<Key, array<Record>>, k1: Key, k2: Key, d: Key)
    requires d in m' && m' == m[d := m'[d]] - {k1} - {k2}
    ensures forall a :: a in m'.Values ==> a in m.Values || a == m'[d]
  {
    forall a | a in m'.Values ensures a in m.Values || a == m'[d] {
      var k :| k in m' && m'[k] == a;
      if k != d { assert k in m && m[k] == a; }
    }
  }

  /** One merge phase: tier `p` is consumed pair by pair into tier `p + 1`. */
  method MergePhase(r: Ram, c: Config, p: nat, chunks: nat)
    requires c.Valid() && 1 <= p <= c.phases && chunks == TierSize(c, p)
    requires r.Valid() && Sized(c, r.dataMap) && Task3.MergePool(c, r.Contents(), p, 0)
    modifies r
    ensures r.Valid() && Sized(c, r.dataMap) && Task3.MergePool(c, r.Contents(), p, chunks)
    ensures forall a :: a in r.live ==> a in old(r.live) || fresh(a)
  {
    hide Task3.MergePool, Pow2, Sorting.Merge, Task3.Width, Tiers.TierSize;
    TierHalves(c, p);
    var i := 0;
    while i < chunks
      invariant 0 <= i <= chunks && i % 2 == 0
      invariant r.Valid() && Sized(c, r.dataMap) && Task3.MergePool(c, r.Contents(), p, i)
      invariant forall a :: a in r.live ==> a in old(r.live) || fresh(a)
    {
      MergeStep(r, c, p, i);
      i := i + 2;
    }
  }

  /** All phases: the number of chunks halves until one is left. */
  method MergeChunks(r: Ram, c: Config)
    requires c.Valid() && r.Valid() && Sized(c, r.dataMap) && Task3.SortPool(c, r.Contents(), c.Chunks())
    modifies r
    ensures r.Valid() && Sized(c, r.dataMap) && Task3.SplitPool(c, r.Contents(), 0, 0)
    ensures forall a :: a in r.live ==> a in old(r.live) || fresh(a)
  {
    hide Task3.MergePool, Task3.SortPool, Task3.SplitPool, Task3.Width, Pow2;
    Task3.FirstTier(c, r.Contents());
    var phase, chunks := 1, c.Chunks();
    while chunks > 1
      invariant 1 <= phase <= c.phases + 1 && chunks == Pow2(c.phases + 1 - phase)
      invariant r.Valid() && Sized(c, r.dataMap)
      invariant phase <= c.phases ==> Task3.MergePool(c, r.Contents(), phase, 0)
      invariant phase == c.phases + 1 ==> Task3.SplitPool(c, r.Contents(), 0, 0)
      invariant forall a :: a in r.live ==> a in old(r.live) || fresh(a)
    {
      LastPhase(c, phase);
      TierHalves(c, phase);
      MergePhase(r, c, phase, chunks);
      Task3.NextTier(c, r.Contents(), phase, chunks);
      chunks := chunks / 2;
      phase := phase + 1;
    }
    LastPhase(c, phase);
  }

  /** Exactly one chunk is left when, and only when, the phases are used up. */
  lemma LastPhase(c: Config, phase: nat)
    requires 1 <= phase <= c.phases + 1
    ensures Pow2(c.phases + 1 - phase) > 1 <==> phase <= c.phases
  {}

  /** Copies records `from` up to `from + n` into a new buffer. */
  method CopyOut(src: array<Record>, from: nat, n: nat) returns (dst: array<Record>)
    requires from + n <= src.Length
    ensures fresh(dst) && dst[..] == src[from..from + n]
  {
    var blank: Record := RawRecord(seq(RECORD_SIZE, _ => 0));
    dst := new Record[n](_ => blank);
    for j := 0 to n
      invariant dst[..j] == src[from..from + j]
      invariant src[..] == old(src[..])
    {
      dst[j] := src[from + j];
      assert src[from..from + j + 1] == src[from..from + j] + [src[from + j]];
      assert dst[..j + 1] == dst[..j] + [dst[j]];
    }
    assert dst[..] == dst[..n];
  }

  lemma SplitStep(c: Config, pm: Pm, i: nat, v: seq<Record>)
    requires c.Valid() && i < c.Chunks() && Task3.SplitPool(c, pm, i, i)
    requires IsSlice(pm[MergedKey(c)], c.records, i, v)
    ensures OutKey(c, i) !in pm && Task3.SplitPool(c, pm[OutKey(c, i) := v], i + 1, i + 1)
    ensures MergedKey(c) != OutKey(c, i)
  {
    hide Pow2, Only, Holds, IsSlice, OutsAre;
    assert TierKey(c.phases + 2, i) !in pm;
    Task3.SplitWiden(c, pm, i);
    Task3.OutTouch(c, pm, i, v);
  }

  lemma MergedPresent(c: Config, pm: Pm, n: nat, m: nat)
    requires c.Valid() && Task3.SplitPool(c, pm, n, m)
    ensures MergedKey(c) in pm && |pm[MergedKey(c)]| == c.Chunks() * c.records
  {
    hide Pow2, Only, OutsAre, Good;
    assert TierKey(c.phases + 1, 0) in pm;
    GoodTop(c, pm[MergedKey(c)]);
  }

  /** Cuts the merged buffer into N output buffers, then frees it. */
  method SplitResult(r: Ram, c: Config)
    requires c.Valid() && r.Valid() && Task3.SplitPool(c, r.Contents(), 0, 0)
    modifies r
    ensures r.Valid() && Task3.Completed(c, r.Contents())
  {
    hide Task3.SplitPool, Task3.Completed, Pow2, IsSlice;
    MergedPresent(c, r.Contents(), 0, 0);
    var merged := r.dataMap[MergedKey(c)];
    for i := 0 to c.Chunks()
      invariant r.Valid() && Task3.SplitPool(c, r.Contents(), i, i)
      invariant MergedKey(c) in r.dataMap && r.dataMap[MergedKey(c)] == merged
      invariant merged.Length == c.Chunks() * c.records && allocated(merged)
      invariant forall a :: a in r.live ==> allocated(a)
    {
      SplitOne(r, c, merged, i);
    }
    Task3.SplitDone(c, r.Contents());
    r.FreeAndErase(MergedKey(c));
  }

  method SplitOne(r: Ram, c: Config, merged: array<Record>, i: nat)
    requires c.Valid() && i < c.Chunks() && r.Valid() && Task3.SplitPool(c, r.Contents(), i, i)
    requires MergedKey(c) in r.dataMap && r.dataMap[MergedKey(c)] == merged && merged.Length == c.Chunks() * c.records
    modifies r
    ensures r.Valid() && Task3.SplitPool(c, r.Contents(), i + 1, i + 1)
    ensures MergedKey(c) in r.dataMap && r.dataMap[MergedKey(c)] == merged
  {
    hide Task3.SplitPool, Pow2;
    assert merged in r.live;
    SliceInside(i, c.Chunks(), c.records);
    var out := CopyOut(merged, i * c.records, c.records);
    ghost var pm := r.Contents();
    assert pm[MergedKey(c)] == merged[..];
    assert merged[..][i * c.records..i * c.records + c.records] == merged[i * c.records..i * c.records + c.records];
    SplitStep(c, pm, i, out[..]);
    r.Insert(OutKey(c, i), out);
  }

  /** Copies every buffer of the map to the pool under its own key, over whatever the key held. */
  method BackupToPM(r: Ram, pm: Pm) returns (pm': Pm)
    requires r.Valid()
    ensures pm' == pm + r.Contents()
  {
    hide Copied, Ram.Valid;
    var todo := r.dataMap.Keys;
    pm' := pm;
    ghost var ram := r.Contents();
    CopiedNone(pm, ram);
    while todo != {}
      invariant todo <= ram.Keys && pm' == Copied(pm, ram, todo)
      decreases |todo|
    {
      var k :| k in todo;
      CopiedOne(pm, ram, todo, k);
      pm' := pm'[k := r.dataMap[k][..]];
      todo := todo - {k};
    }
    CopiedAll(pm, ram);
  }

  /** The pool once every buffer but those of `todo` has been written to it. */
  ghost function Copied(pm: Pm, ram: Pm, todo: set<Key>): (pm': Pm) {
    pm + (ram - todo)
  }

  lemma CopiedNone(pm: Pm, ram: Pm)
    ensures Copied(pm, ram, ram.Keys) == pm
  {}

  lemma CopiedOne(pm: Pm, ram: Pm, todo: set<Key>, k: Key)
    requires k in ram && k in todo
    ensures Copied(pm, ram, todo)[k := ram[k]] == Copied(pm, ram, todo - {k})
  {}

  lemma CopiedAll(pm: Pm, ram: Pm)
    ensures Copied(pm, ram, {}) == pm + ram
  {
    assert ram - {} == ram;
  }

  /** Frees every buffer still in the map, each once, and empties the map. */
  method FreeMap(r: Ram)
    requires r.Valid()
    modifies r
    ensures r.Valid() && r.dataMap == map[] && r.live == {}
  {
    while r.dataMap != map[]
      invariant r.Valid()
      decreases |r.dataMap|
    {
      var k :| k in r.dataMap;
      r.FreeAndErase(k);
    }
  }

  /** The number of chunks of a level, halved once per merge phase. */
  method ChunksInLevel(c: Config, level: int) returns (n: nat)
    requires c.Valid() && -1 <= level <= c.phases
    ensures n == TierSize(c, LevelTier(level))
  {
    n := c.Chunks();
    var l := level;
    while l > 0
      invariant l <= level && (level <= 0 ==> l == level) && (level > 0 ==> 0 <= l && n == Pow2(c.phases - level + l))
      invariant level <= 0 ==> n == c.Chunks()
    {
      n := n / 2;
      l := l - 1;
    }
  }

  /** The tier that a level argument names. */
  function LevelTier(level: int): (t: nat)
    requires level >= -1
    ensures LevelArg(t) == level
  {
    if level == -1 then 1 else if level == 0 then 0 else level + 1
  }

  /** Loading is what task 2 takes for one step. */
  lemma SuppliedLoads(c: Config, s: Task2.State, t: nat, next: Task2.Pc, memory: Key -> seq<Record>)
    requires TierKey(t, 0) in s.pm
    ensures var pm := Supplied(s.pm, t, TierSize(c, t), memory);
      Task2.Loads(c, s, s.(pm := pm, ram := Task2.Restrict(c, pm, t), pc := next), t, next)
  {
    hide Task2.Restrict, Pow2;
    assert FirstKeys(t, TierSize(c, t)) == TierKeys(c, t);
  }

  /**
   * Copies a level from the pool into new buffers.  The size of one chunk is passed to the next open, so
   * that only the first chunk has to exist; another that is missing is created with what memory held.
   */
  method LoadFromPM(r: Ram, c: Config, pm: Pm, level: int, memory: Key -> seq<Record>) returns (ok: bool, pm': Pm)
    requires c.Valid() && r.Valid() && r.dataMap == map[] && -1 <= level <= c.phases
    requires var t := LevelTier(level);
      forall k :: InTier(c, k, t) ==> |if k in pm then pm[k] else memory(k)| == c.records * Task3.Width(t)
    modifies r
    ensures r.Valid()
    ensures ok <==> TierKey(LevelTier(level), 0) in pm
    ensures !ok ==> pm' == pm && r.dataMap == map[]
    ensures ok ==>
      && pm' == Supplied(pm, LevelTier(level), TierSize(c, LevelTier(level)), memory)
      && Sized(c, r.dataMap) && r.Contents() == Task2.Restrict(c, pm', LevelTier(level))
    ensures forall a :: a in r.live ==> fresh(a)
  {
    hide Pow2, Sized, Loaded, Task3.Width, Tiers.TierSize, Task2.Restrict, Supplied;
    var n := ChunksInLevel(c, level);
    var i, valueSize := 0, 0;
    ghost var t := LevelTier(level);
    ok, pm' := true, pm;
    SomeChunk(c, t);
    LoadedNone(pm, t);
    SizedNone(c);
    SuppliedNone(pm, t, memory);
    while i < n
      invariant 0 <= i <= n && pm' == Supplied(pm, t, i, memory)
      invariant (i == 0 ==> valueSize == 0 && r.dataMap == map[]) && (i > 0 ==> TierKey(t, 0) in pm && valueSize > 0)
      invariant r.Valid() && Sized(c, r.dataMap) && r.Contents() == Loaded(pm', t, i)
      invariant forall a :: a in r.live ==> fresh(a)
    {
      var k := Chunk(if level == -1 then 0 else level, i, level == -1);
      assert k == TierKey(t, i) && InTier(c, k, t);
      SuppliedOne(pm, t, i, memory);
      if k !in pm' {
        if valueSize == 0 { return false, pm; }
        LoadedBelow(pm', t, i, memory(k));
        pm' := pm'[k := memory(k)];
      }
      valueSize := |pm'[k]|;
      SomeRecords(c, t);
      LoadOne(r, c, pm', k, t, i);
      i := i + 1;
    }
    LoadedAll(c, pm', t);
  }

  lemma SomeChunk(c: Config, t: nat)
    ensures TierSize(c, t) >= 1
  {}

  lemma SomeRecords(c: Config, t: nat)
    requires c.Valid()
    ensures c.records * Task3.Width(t) >= 1
  {}

  lemma LoadedBelow(pm: Pm, t: nat, n: nat, v: seq<Record>)
    ensures Loaded(pm[TierKey(t, n) := v], t, n) == Loaded(pm, t, n)
  {}

  method LoadOne(r: Ram, c: Config, pm: Pm, k: Key, ghost t: nat, ghost i: nat)
    requires r.Valid() && Sized(c, r.dataMap) && r.Contents() == Loaded(pm, t, i) && k == TierKey(t, i)
    requires k in pm && |pm[k]| == c.records * Task3.Width(t)
    modifies r
    ensures r.Valid() && Sized(c, r.dataMap) && r.Contents() == Loaded(pm, t, i + 1)
    ensures forall a :: a in r.live && a !in old(r.live) ==> fresh(a)
  {
    hide Pow2, Sized, Loaded, Task3.Width;
    var a := CopySeq(pm[k]);
    LoadedOne(pm, t, i);
    SizedInput(c, r.dataMap, k, a);
    r.Insert(k, a);
  }

  lemma SizedNone(c: Config)
    ensures Sized(c, map[])
  {}

  lemma SizedInput(c: Config, m: map<Key, array<Record>>, k: Key, a: array<Record>)
    requires Sized(c, m) && a.Length == c.records * Task3.Width(TierOf(k))
    ensures Sized(c, m[k := a])
  {
    hide Task3.Width;
  }

  /** The first `n` chunks of a tier of the pool. */
  ghost function Loaded(pm: Pm, t: nat, n: nat): (ram: Pm) {
    map k | k in pm && k == TierKey(t, k.index) && k.index < n :: pm[k]
  }

  lemma LoadedNone(pm: Pm, t: nat)
    ensures Loaded(pm, t, 0) == map[]
  {}

  lemma LoadedOne(pm: Pm, t: nat, n: nat)
    requires TierKey(t, n) in pm
    ensures TierKey(t, n) !in Loaded(pm, t, n)
    ensures Loaded(pm, t, n + 1) == Loaded(pm, t, n)[TierKey(t, n) := pm[TierKey(t, n)]]
  {}

  lemma LoadedAll(c: Config, pm: Pm, t: nat)
    ensures Loaded(pm, t, TierSize(c, t)) == Task2.Restrict(c, pm, t)
  {
    hide Pow2;
    forall k | k in pm ensures k in Loaded(pm, t, TierSize(c, t)) <==> k in TierKeys(c, t) { InTierIsMember(c, k, t); }
  }

  method CopySeq(s: seq<Record>) returns (a: array<Record>)
    ensures fresh(a) && a[..] == s
  {
    a := new Record[|s|](i requires 0 <= i < |s| => s[i]);
  }

  lemma LoadedPool(c: Config, pm: Pm, ram: Pm)
    requires c.Valid() && Has(c, pm, 0) && ram == Task2.Restrict(c, pm, 0)
    ensures Task3.SortPool(c, ram, 0)
  {
    hide Pow2;
    forall k | k in ram ensures TierOf(k) == 0 && InTier(c, k, 0) { InTierIsMember(c, k, 0); }
  }

  lemma BackedUp(c: Config, pm: Pm, ram: Pm)
    requires c.Valid() && Task3.Completed(c, ram)
    ensures SortedOutput(c, pm + ram)
  {
    hide Good, IsSlice, Pow2, SortedOutput;
    var m :| Good(c, c.phases, 0, m) && OutsAre(c, ram, m, c.Chunks());
    assert OutsAre(c, pm + ram, m, c.Chunks());
    FinishedIsSorted(c, pm + ram);
  }

  /** What the task takes for input chunk `i`: what is in the pool, or else what memory held. */
  ghost predicate TakesInput(c: Config, pm: Pm, memory: Key -> seq<Record>) {
    forall i :: 0 <= i < |c.input| ==>
      c.input[i] == if TierKey(0, i) in pm then pm[TierKey(0, i)] else memory(TierKey(0, i))
  }

  /**
   * The whole task.  It fails, and changes nothing, if and only if the first input chunk is missing.
   * Otherwise it leaves the sorted output in place of whatever the output keys held, the input as it was
   * taken, everything else untouched, and no buffer allocated.
   */
  method SortTask1(c: Config, pm: Pm, memory: Key -> seq<Record>) returns (ok: bool, pm': Pm, r: Ram)
    requires c.Valid() && TakesInput(c, pm, memory)
    ensures ok <==> TierKey(0, 0) in pm
    ensures !ok ==> pm' == pm
    ensures ok ==>
      && SortedOutput(c, pm') && Has(c, pm', 0)
      && pm'.Keys == pm.Keys + TierKeys(c, 0) + TierKeys(c, c.phases + 2)
      && (forall k :: k in pm && k !in TierKeys(c, c.phases + 2) ==> pm'[k] == pm[k])
    ensures r.dataMap == map[] && r.live == {}
  {
    hide Task3.SortPool, Task3.SplitPool, Task3.Completed, Pow2, SortedOutput, Sized, Only, Has, TierKeys, TakesInput,
      Copied, Task2.Restrict, Task3.Width, Supplied, Tiers.TierSize;
    r := new Ram();
    InputSizes(c, pm, memory);
    ok, pm' := LoadFromPM(r, c, pm, 0, memory);
    if !ok { return; }
    ghost var pm1 := pm';
    LoadedPool(c, pm1, r.Contents());
    SortChunks(r, c);
    MergeChunks(r, c);
    SplitResult(r, c);
    ghost var ram := r.Contents();
    OutputKeys(c, ram);
    pm' := BackupToPM(r, pm');
    BackedUp(c, pm1, ram);
    Untouched(c, pm, memory, ram);
    FreeMap(r);
  }

  lemma InputSizes(c: Config, pm: Pm, memory: Key -> seq<Record>)
    requires c.Valid() && TakesInput(c, pm, memory)
    ensures forall k :: InTier(c, k, 0) ==> |if k in pm then pm[k] else memory(k)| == c.records * Task3.Width(0)
    ensures Has(c, Supplied(pm, 0, TierSize(c, 0), memory), 0)
  {
    hide Pow2;
    Task3.WidthOne();
    forall k | InTier(c, k, 0) ensures |if k in pm then pm[k] else memory(k)| == c.records {
      assert k == TierKey(0, k.index);
    }
    forall i | 0 <= i < TierSize(c, 0) ensures TierKey(0, i) in FirstKeys(0, TierSize(c, 0)) {}
  }

  lemma Untouched(c: Config, pm: Pm, memory: Key -> seq<Record>, ram: Pm)
    requires ram.Keys == TierKeys(c, c.phases + 2) && Has(c, Supplied(pm, 0, TierSize(c, 0), memory), 0)
    ensures var pm' := Supplied(pm, 0, TierSize(c, 0), memory) + ram;
      && Has(c, pm', 0) && pm'.Keys == pm.Keys + TierKeys(c, 0) + TierKeys(c, c.phases + 2)
      && (forall k :: k in pm && k !in TierKeys(c, c.phases + 2) ==> pm'[k] == pm[k])
  {
    hide Pow2, Tiers.TierSize;
    assert FirstKeys(0, TierSize(c, 0)) == TierKeys(c, 0);
    forall i | 0 <= i < TierSize(c, 0) ensures TierKey(0, i) !in ram {
      InTierIsMember(c, TierKey(0, i), c.phases + 2);
    }
  }

  lemma OutputKeys(c: Config, ram: Pm)
    requires Task3.Completed(c, ram)
    ensures ram.Keys == TierKeys(c, c.phases + 2)
  {
    hide Good, IsSlice, Pow2;
    forall k ensures k in ram <==> k in TierKeys(c, c.phases + 2) {
      InTierIsMember(c, k, c.phases + 2);
      if k in TierKeys(c, c.phases + 2) { assert OutKey(c, k.index) == k; }
    }
  }
}
