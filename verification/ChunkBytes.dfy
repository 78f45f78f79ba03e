/** Chunks as the bytes the store holds: the copies that split the merged chunk, and `verify`. */
module ChunkBytes {
  import opened Records
  import opened KeyNames
  import opened Tiers
  import opened Pool
  import opened Slices

  /** A chunk of `size` bytes carries `records` records and then unused bytes. */
  datatype Layout = Layout(records: nat, size: nat)
  {
    predicate Valid() { records >= 1 && records * RECORD_SIZE <= size }
  }

  function RecordAt(b: seq<Byte>, k: nat): (r: Record)
    requires (k + 1) * RECORD_SIZE <= |b|
  {
    RawRecord(b[k * RECORD_SIZE..k * RECORD_SIZE + RECORD_SIZE])
  }

  ghost function RecordsIn(b: seq<Byte>, n: nat): (s: seq<Record>)
    requires n * RECORD_SIZE <= |b|
    ensures |s| == n && forall k :: 0 <= k < n ==> s[k] == RecordAt(b, k)
  {
    seq(n, k requires 0 <= k < n => RecordAt(b, k))
  }

  /** The bytes of records, one after the other. */
  ghost function Bytes(rs: seq<Record>): (b: seq<Byte>) {
    if rs == [] then [] else Bytes(rs[..|rs| - 1]) + rs[|rs| - 1].bytes
  }

  /** The records of a chunk are its bytes, a hundred at a time. */
  lemma {:induction false} RecordBytes(b: seq<Byte>, n: nat)
    requires n * 100 <= |b|
    ensures Bytes(RecordsIn(b, n)) == b[..n * 100]
  {
    if n > 0 {
      var rs := RecordsIn(b, n);
      RecordBytes(b, n - 1);
      assert rs[..n - 1] == RecordsIn(b, n - 1);
      assert b[..n * 100] == b[..(n - 1) * 100] + b[(n - 1) * 100..n * 100];
    }
  }

  // ----- splitting

  /**
   * Each output is filled with a whole chunk's worth of bytes, more than its records take.  The copy
   * still ends inside the merged chunk, and the records it carries are the output's slice.
   */
  lemma SplitCopies(l: Layout, n: nat, merged: seq<Byte>, i: nat)
    requires l.Valid() && i < n && |merged| == n * l.size
    ensures i * l.records * RECORD_SIZE + l.size <= |merged| && n * l.records * RECORD_SIZE <= |merged|
    ensures IsSlice(RecordsIn(merged, n * l.records), l.records, i,
                    RecordsIn(merged[i * l.records * RECORD_SIZE..i * l.records * RECORD_SIZE + l.size], l.records))
  {
    CopyInside(l, n, i);
    SliceInside(i, n, l.records);
    CarriedSlice(merged, n * l.records, i * l.records, l.size, l.records);
  }

  lemma CarriedSlice(b: seq<Byte>, total: nat, from: nat, size: nat, n: nat)
    requires from * RECORD_SIZE + size <= |b| && total * RECORD_SIZE <= |b|
    requires from + n <= total && n * RECORD_SIZE <= size
    ensures RecordsIn(b[from * RECORD_SIZE..from * RECORD_SIZE + size], n) == RecordsIn(b, total)[from..from + n]
  {
    hide RecordAt;
    var copy := b[from * RECORD_SIZE..from * RECORD_SIZE + size];
    forall k | 0 <= k < n ensures RecordsIn(copy, n)[k] == RecordsIn(b, total)[from + k] {
      CopiedRecord(b, from, size, k);
    }
  }

  lemma CopyInside(l: Layout, n: nat, i: nat)
    requires l.Valid() && i < n
    ensures i * l.records * RECORD_SIZE + l.size <= n * l.size && n * l.records * RECORD_SIZE <= n * l.size
  {
    var used := l.records * RECORD_SIZE;
    Scaled(i, used, l.size);
    Scaled(n, used, l.size);
    SliceInside(i, n, l.size);
    assert i * l.records * RECORD_SIZE == i * used && n * l.records * RECORD_SIZE == n * used;
  }

  lemma Scaled(i: nat, a: nat, b: nat)
    requires a <= b
    ensures i * a <= i * b
  {}

  lemma CopiedRecord(b: seq<Byte>, from: nat, size: nat, k: nat)
    requires from * RECORD_SIZE + size <= |b| && (k + 1) * RECORD_SIZE <= size
    ensures RecordAt(b[from * RECORD_SIZE..from * RECORD_SIZE + size], k) == RecordAt(b, from + k)
  {
    SubSlice(b, from * RECORD_SIZE, size, k * RECORD_SIZE, RECORD_SIZE);
    assert from * RECORD_SIZE + k * RECORD_SIZE == (from + k) * RECORD_SIZE;
  }

  // ----- verifying

  type RawPool = map<Key, seq<Byte>>

  datatype Verdict = Failed | Verified(sorted: bool)

  function OutputKey(phases: nat, i: nat): (k: Key) {
    TierKey(phases + 2, i)
  }

  predicate Opens(pool: RawPool, k: Key, size: nat) {
    k in pool && |pool[k]| == size
  }

  /** Every output chunk of a sort of `Pow2(phases)` chunks is present with the right size. */
  ghost predicate AllOpen(pool: RawPool, phases: nat, l: Layout, n: nat) {
    forall i :: 0 <= i < n ==> Opens(pool, OutputKey(phases, i), l.size)
  }

  ghost function OutputRecords(pool: RawPool, phases: nat, l: Layout, n: nat): (outs: seq<seq<Record>>)
    requires l.Valid() && AllOpen(pool, phases, l, n)
    ensures |outs| == n && forall i :: 0 <= i < n ==> outs[i] == RecordsIn(pool[OutputKey(phases, i)], l.records)
  {
    seq(n, i requires 0 <= i < n => RecordsIn(pool[OutputKey(phases, i)], l.records))
  }

  /** Chunks of equal length are indexed by quotient and remainder. */
  lemma {:induction false} FlattenIndex(cs: seq<seq<Record>>, r: nat, i: nat)
    requires r >= 1 && (forall j :: 0 <= j < |cs| ==> |cs[j]| == r) && i < |cs| * r
    ensures |Flatten(cs)| == |cs| * r && i / r < |cs|
    ensures Flatten(cs)[i] == cs[i / r][i % r]
  {
    hide Flatten;
    var n := |cs| - 1;
    FlattenLength(cs, r);
    FlattenLength(cs[..n], r);
    FlattenLast(cs);
    if i < n * r {
      FlattenIndex(cs[..n], r, i);
    } else {
      LastQuotient(n, r, i);
    }
  }

  lemma LastQuotient(n: nat, r: nat, i: nat)
    requires r >= 1 && n * r <= i < (n + 1) * r
    ensures i / r == n && i % r == i - n * r
  {
    var k := i - n * r;
    assert i == n * r + k && 0 <= k < r;
    QuotientUnique(i, r, i / r, i % r, n, k);
  }

  lemma QuotientUnique(i: nat, r: nat, q: nat, k: nat, q': nat, k': nat)
    requires i == q * r + k == q' * r + k' && k < r && k' < r
    ensures q == q' && k == k'
  {
    if q < q' { SliceInside(q, q', r); }
    if q' < q { SliceInside(q', q, r); }
  }

  /** The record that neighbours across all the chunks are counted by. */
  method ChunksToRecord(chunks: seq<seq<Byte>>, l: Layout, i: nat, ghost outs: seq<seq<Record>>) returns (r: Record)
    requires l.Valid() && i < |chunks| * l.records && |outs| == |chunks|
    requires forall j :: 0 <= j < |chunks| ==> |chunks[j]| == l.size && outs[j] == RecordsIn(chunks[j], l.records)
    ensures i < |Flatten(outs)| == |outs| * l.records && r == Flatten(outs)[i]
  {
    hide Flatten;
    FlattenIndex(outs, l.records, i);
    r := RecordAt(chunks[i / l.records], i % l.records);
  }

  /** The pool after the first `n` outputs have been opened. */
  ghost function Opened(pool: RawPool, phases: nat, n: nat, memory: Key -> seq<Byte>): (p: RawPool) {
    Supplied(pool, phases + 2, n, memory)
  }

  /** The first output exists, and every output that exists has the right size. */
  ghost predicate Openable(pool: RawPool, phases: nat, l: Layout, n: nat) {
    && Opens(pool, OutputKey(phases, 0), l.size)
    && forall i :: 0 <= i < n && OutputKey(phases, i) in pool ==> Opens(pool, OutputKey(phases, i), l.size)
  }

  /** The ten bytes at `i` are lexicographically below the ten at `j`. */
  ghost predicate BytesBelow(a: seq<Byte>, i: nat, b: seq<Byte>, j: nat)
    requires i + 10 <= |a| && j + 10 <= |b|
  {
    var x, y := a[i..i + 10], b[j..j + 10];
    exists n :: 0 <= n < 10 && x[..n] == y[..n] && x[n] < y[n]
  }

  /** The stored bytes of record `i + 1`, counted across the outputs of `r` records each, are not below those of `i`. */
  ghost predicate NeighboursInOrder(pool: RawPool, phases: nat, r: nat, i: nat)
    requires r >= 1
  {
    var k, k' := Chunk(phases + 1, i / r, false), Chunk(phases + 1, (i + 1) / r, false);
    && k in pool && k' in pool && 100 * (i % r) + 10 <= |pool[k]| && 100 * ((i + 1) % r) + 10 <= |pool[k']|
    && !BytesBelow(pool[k'], 100 * ((i + 1) % r), pool[k], 100 * (i % r))
  }

  lemma BelowIsBefore(a: seq<Byte>, i: nat, b: seq<Byte>, j: nat)
    requires (i + 1) * 100 <= |a| && (j + 1) * 100 <= |b|
    ensures BytesBelow(a, 100 * i, b, 100 * j) <==> KeyBefore(RecordAt(a, i), RecordAt(b, j))
  {
    var x, y := a[100 * i..100 * i + 10], b[100 * j..100 * j + 10];
    FirstTen(a, i);
    FirstTen(b, j);
    assert forall n :: 0 <= n < 10 ==> RecordAt(a, i).bytes[..n] == x[..n] && RecordAt(b, j).bytes[..n] == y[..n];
  }

  lemma FirstTen(b: seq<Byte>, i: nat)
    requires (i + 1) * 100 <= |b|
    ensures var r, x := RecordAt(b, i).bytes, b[100 * i..100 * i + 10];
      forall n :: 0 <= n < 10 ==> r[n] == x[n] && r[..n] == x[..n]
  {
    assert 100 * i == i * 100;
  }

  lemma RecordInside(l: Layout, k: nat)
    requires l.Valid() && k < l.records
    ensures (k + 1) * 100 <= l.size
  {
    Larger(k + 1, l.records, 100);
  }

  /** Sorted outputs are those whose stored bytes are in order. */
  lemma SortedBytes(pool: RawPool, phases: nat, l: Layout, n: nat)
    requires l.Valid() && AllOpen(pool, phases, l, n)
    ensures Sorted(Flatten(OutputRecords(pool, phases, l, n)))
            <==> forall i :: 0 <= i < n * l.records - 1 ==> NeighboursInOrder(pool, phases, l.records, i)
  {
    var outs, r := OutputRecords(pool, phases, l, n), l.records;
    FlattenLength(outs, r);
    AdjacentIsSorted(Flatten(outs));
    forall i | 0 <= i < n * r - 1
      ensures NeighboursInOrder(pool, phases, r, i) <==> SortKey(Flatten(outs)[i]) <= SortKey(Flatten(outs)[i + 1])
    {
      NeighbourKeys(pool, phases, l, n, i);
    }
    hide NeighboursInOrder, SortKey, Flatten, Sorted;
    if AdjacentSorted(Flatten(outs)) {
      forall i | 0 <= i < n * r - 1 ensures NeighboursInOrder(pool, phases, r, i) {
        assert SortKey(Flatten(outs)[i]) <= SortKey(Flatten(outs)[i + 1]);
      }
    }
  }

  lemma NeighbourKeys(pool: RawPool, phases: nat, l: Layout, n: nat, i: nat)
    requires l.Valid() && AllOpen(pool, phases, l, n) && i + 1 < n * l.records
    ensures var all := Flatten(OutputRecords(pool, phases, l, n));
      && |all| == n * l.records
      && (NeighboursInOrder(pool, phases, l.records, i) <==> SortKey(all[i]) <= SortKey(all[i + 1]))
  {
    hide Flatten, SortKey, KeyBefore, RecordAt, BytesBelow;
    var r := l.records;
    var j, j', o, o' := i / r, (i + 1) / r, i % r, (i + 1) % r;
    StoredAt(pool, phases, l, n, i);
    StoredAt(pool, phases, l, n, i + 1);
    var k, k' := OutputKey(phases, j), OutputKey(phases, j');
    BelowIsBefore(pool[k'], o', pool[k], o);
    KeyBeforeIs(RecordAt(pool[k'], o'), RecordAt(pool[k], o));
  }

  /** Record `i` of all is stored in output i / R, a hundred bytes long, at a hundred times i % R. */
  lemma StoredAt(pool: RawPool, phases: nat, l: Layout, n: nat, i: nat)
    requires l.Valid() && AllOpen(pool, phases, l, n) && i < n * l.records
    ensures var all, k := Flatten(OutputRecords(pool, phases, l, n)), OutputKey(phases, i / l.records);
      && |all| == n * l.records && k in pool
      && (i % l.records + 1) * 100 <= |pool[k]| && all[i] == RecordAt(pool[k], i % l.records)
  {
    hide Flatten, RecordAt;
    FlattenIndex(OutputRecords(pool, phases, l, n), l.records, i);
    RecordInside(l, i % l.records);
    assert Opens(pool, OutputKey(phases, i / l.records), l.size);
  }

  /**
   * Opens every output, then compares neighbours across all of them.  The size of one chunk is passed to
   * the next open, so that only the first output has to exist; another that is missing is created, and
   * what it happens to hold is compared like the rest.
   */
  method Verify(pool: RawPool, phases: nat, l: Layout, memory: Key -> seq<Byte>) returns (v: Verdict, pool': RawPool)
    requires l.Valid() && forall k :: |memory(k)| == l.size
    ensures v.Failed? <==> !Openable(pool, phases, l, Pow2(phases))
    ensures v.Failed? ==> exists n :: 0 <= n < Pow2(phases) && pool' == Opened(pool, phases, n, memory)
    ensures v.Verified? ==>
      && pool' == Opened(pool, phases, Pow2(phases), memory) && AllOpen(pool', phases, l, Pow2(phases))
      && (v.sorted <==> Sorted(Flatten(OutputRecords(pool', phases, l, Pow2(phases)))))
      && (v.sorted <==>
            forall i :: 0 <= i < Pow2(phases) * l.records - 1 ==> NeighboursInOrder(pool', phases, l.records, i))
  {
    hide Flatten, SortKey, Supplied, Sorted, NeighboursInOrder;
    var n := Pow2(phases);
    hide Pow2;
    var last := GetFinalMergePhase(n);
    LogarithmExact(phases, last);
    var chunks: seq<seq<Byte>>, valueSize := [], 0;
    pool' := pool;
    SuppliedNone(pool, phases + 2, memory);
    for i := 0 to n
      invariant |chunks| == i && AllOpen(pool', phases, l, i) && valueSize == (if i == 0 then 0 else l.size)
      invariant pool' == Opened(pool, phases, i, memory)
      invariant forall j :: 0 <= j < i ==> chunks[j] == pool'[OutputKey(phases, j)]
      invariant i > 0 ==> Openable(pool, phases, l, i)
    {
      var k := Chunk(last + 1, i, false);
      assert k == OutputKey(phases, i);
      SuppliedOne(pool, phases + 2, i, memory);
      if k !in pool' {
        if valueSize == 0 { return Failed, pool'; }
        pool' := pool'[k := memory(k)];
      }
      valueSize := |pool'[k]|;
      if valueSize != l.size { return Failed, pool'; }
      chunks := chunks + [pool'[k]];
    }
    var sorted := InOrder(chunks, l, OutputRecords(pool', phases, l, n));
    SortedBytes(pool', phases, l, n);
    v := Verified(sorted);
  }

  /** Compares neighbours across all chunks. */
  method InOrder(chunks: seq<seq<Byte>>, l: Layout, ghost outs: seq<seq<Record>>) returns (sorted: bool)
    requires l.Valid() && |outs| == |chunks| >= 1
    requires forall j :: 0 <= j < |chunks| ==> |chunks[j]| == l.size && outs[j] == RecordsIn(chunks[j], l.records)
    ensures sorted <==> Sorted(Flatten(outs))
  {
    hide Flatten, SortKey, RecordsIn;
    FlattenLength(outs, l.records);
    AdjacentIsSorted(Flatten(outs));
    for i := 0 to |chunks| * l.records - 1
      invariant forall j :: 0 <= j < i ==> SortKey(Flatten(outs)[j]) <= SortKey(Flatten(outs)[j + 1])
    {
      var a := ChunksToRecord(chunks, l, i, outs);
      var b := ChunksToRecord(chunks, l, i + 1, outs);
      var less := IsSmaller(b, a);
      if less { return false; }
    }
    return true;
  }

  /** A pool that holds the result of a sort passes. */
  lemma SortedOutputVerifies(c: Config, pm: Pm, pool: RawPool, l: Layout)
    requires SortedOutput(c, pm) && l.Valid() && AllOpen(pool, c.phases, l, c.Chunks())
    requires forall j :: 0 <= j < c.Chunks() ==> pm[OutKey(c, j)] == RecordsIn(pool[OutputKey(c.phases, j)], l.records)
    ensures Sorted(Flatten(OutputRecords(pool, c.phases, l, c.Chunks())))
  {
    hide Flatten, Pow2, Sorted;
    assert OutputRecords(pool, c.phases, l, c.Chunks()) == Outputs(c, pm, c.Chunks());
  }
}
