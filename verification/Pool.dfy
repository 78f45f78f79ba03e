/** The persistent pool (chunk keys and the superblock) and what it may hold during a sort. */
module Pool {
  import opened Records
  import opened KeyNames
  import opened Tiers

  datatype Stage = Idle | SortChunks | MergeChunks | SplitResult

  /** What a reader of the superblock gets (`get_updated_superblock`). */
  datatype Superblock = Superblock(stage: Stage, index: nat, phase: nat)

  type Pm = map<Key, seq<Record>>

  /** `v` is the right content for chunk `i` of tier `t`. */
  ghost predicate Holds(c: Config, t: nat, i: nat, v: seq<Record>) {
    if t == 0 then i < |c.input| && v == c.input[i]
    else t <= c.phases + 1 && Good(c, t - 1, i, v)
  }

  /** Every chunk of the tier is present and right. */
  ghost predicate Has(c: Config, pm: Pm, t: nat) {
    forall i :: 0 <= i < TierSize(c, t) ==> TierKey(t, i) in pm && Holds(c, t, i, pm[TierKey(t, i)])
  }

  /** Every key belongs to one of the tiers. */
  ghost predicate Only(c: Config, pm: Pm, ts: set<nat>) {
    forall k :: k in pm ==> TierOf(k) in ts && InTier(c, k, TierOf(k))
  }

  /** Chunks `lo` up to `hi` of the tier are present and right. */
  ghost predicate AllRight(c: Config, pm: Pm, t: nat, lo: nat, hi: nat) {
    forall j :: lo <= j < hi ==> TierKey(t, j) in pm && Holds(c, t, j, pm[TierKey(t, j)])
  }

  /** Chunks `lo` up to `hi` of the tier are absent. */
  ghost predicate NoneOf(pm: Pm, t: nat, lo: nat, hi: nat) {
    forall j :: lo <= j < hi ==> TierKey(t, j) !in pm
  }

  function MergedKey(c: Config): (k: Key) { TierKey(c.phases + 1, 0) }

  function OutKey(c: Config, i: nat): (k: Key) { TierKey(c.phases + 2, i) }

  /** Outputs below `n` are present and are their slices of `m`. */
  ghost predicate OutsAre(c: Config, pm: Pm, m: seq<Record>, n: nat) {
    forall j :: 0 <= j < n ==> OutKey(c, j) in pm && IsSlice(m, c.records, j, pm[OutKey(c, j)])
  }

  /** The sort's result is in the pool. */
  ghost predicate Finished(c: Config, pm: Pm) {
    exists m :: Good(c, c.phases, 0, m) && OutsAre(c, pm, m, c.Chunks())
  }

  ghost function Outputs(c: Config, pm: Pm, n: nat): (outs: seq<seq<Record>>)
    requires forall j :: 0 <= j < n ==> OutKey(c, j) in pm
    ensures |outs| == n && forall j :: 0 <= j < n ==> outs[j] == pm[OutKey(c, j)]
  {
    seq(n, j requires 0 <= j < n => pm[OutKey(c, j)])
  }

  /** The output chunks 0 .. N-1, concatenated, are sorted and a permutation of the loaded records. */
  ghost predicate SortedOutput(c: Config, pm: Pm) {
    && (forall j :: 0 <= j < c.Chunks() ==> OutKey(c, j) in pm)
    && Sorted(Flatten(Outputs(c, pm, c.Chunks())))
    && multiset(Flatten(Outputs(c, pm, c.Chunks()))) == Everything(c)
  }

  lemma FinishedIsSorted(c: Config, pm: Pm)
    requires c.Valid() && Finished(c, pm)
    ensures SortedOutput(c, pm)
  {
    hide Flatten, Good, Pow2, IsSlice;
    var m :| Good(c, c.phases, 0, m) && OutsAre(c, pm, m, c.Chunks());
    SplitIsWhole(c, m, Outputs(c, pm, c.Chunks()));
  }

  /** In a sorted output no record has smaller first ten bytes than one before it, in its chunk or an earlier one. */
  lemma OutputOrder(c: Config, pm: Pm, j: nat, k: nat, j': nat, k': nat)
    requires SortedOutput(c, pm) && j < c.Chunks() && j' < c.Chunks() && (j < j' || (j == j' && k < k'))
    requires k < |pm[OutKey(c, j)]| && k' < |pm[OutKey(c, j')]|
    ensures !KeyBefore(pm[OutKey(c, j')][k'], pm[OutKey(c, j)][k])
  {
    hide Flatten, Sorted, KeyBefore, Pow2;
    var outs := Outputs(c, pm, c.Chunks());
    SortedMeans(Flatten(outs));
    FlattenPlace(outs, j, k);
    FlattenPlace(outs, j', k');
    if j < j' { FlattenGrows(outs, j + 1, j'); }
  }

  // ----- what erasing and writing one key leaves alone

  lemma HasErase(c: Config, pm: Pm, k: Key, t: nat)
    requires Has(c, pm, t) && TierOf(k) != t
    ensures Has(c, pm - {k}, t)
  {}

  lemma OnlyErase(c: Config, pm: Pm, k: Key, ts: set<nat>)
    requires Only(c, pm, ts)
    ensures Only(c, pm - {k}, ts)
  {}

  ghost predicate Outside(k: Key, t: nat, lo: nat, hi: nat) {
    TierOf(k) != t || k.index < lo || hi <= k.index
  }

  lemma RightErase(c: Config, pm: Pm, k: Key, t: nat, lo: nat, hi: nat)
    requires AllRight(c, pm, t, lo, hi) && Outside(k, t, lo, hi)
    ensures AllRight(c, pm - {k}, t, lo, hi)
  {}

  lemma RightWrite(c: Config, pm: Pm, k: Key, v: seq<Record>, t: nat, lo: nat, hi: nat)
    requires AllRight(c, pm, t, lo, hi) && Outside(k, t, lo, hi)
    ensures AllRight(c, pm[k := v], t, lo, hi)
  {}

  lemma NoneErase(pm: Pm, k: Key, t: nat, lo: nat, hi: nat)
    requires NoneOf(pm, t, lo, hi)
    ensures NoneOf(pm - {k}, t, lo, hi)
  {}

  lemma NoneWrite(pm: Pm, k: Key, v: seq<Record>, t: nat, lo: nat, hi: nat)
    requires NoneOf(pm, t, lo, hi) && Outside(k, t, lo, hi)
    ensures NoneOf(pm[k := v], t, lo, hi)
  {}

  lemma OutsErase(c: Config, pm: Pm, k: Key, m: seq<Record>, n: nat)
    requires OutsAre(c, pm, m, n) && (TierOf(k) != c.phases + 2 || n <= k.index)
    ensures OutsAre(c, pm - {k}, m, n)
  {
    hide IsSlice;
  }

  lemma FinishedErase(c: Config, pm: Pm, k: Key)
    requires Finished(c, pm) && TierOf(k) != c.phases + 2
    ensures Finished(c, pm - {k})
  {
    hide Good, OutsAre, Pow2;
    var m :| Good(c, c.phases, 0, m) && OutsAre(c, pm, m, c.Chunks());
    OutsErase(c, pm, k, m, c.Chunks());
  }

  lemma HasWrite(c: Config, pm: Pm, k: Key, v: seq<Record>, t: nat)
    requires Has(c, pm, t) && TierOf(k) != t
    ensures Has(c, pm[k := v], t)
  {}

  lemma OnlyWrite(c: Config, pm: Pm, k: Key, v: seq<Record>, ts: set<nat>)
    requires Only(c, pm, ts) && TierOf(k) in ts && InTier(c, k, TierOf(k))
    ensures Only(c, pm[k := v], ts)
  {}

  lemma OutsWrite(c: Config, pm: Pm, k: Key, v: seq<Record>, m: seq<Record>, n: nat)
    requires OutsAre(c, pm, m, n) && (TierOf(k) != c.phases + 2 || n <= k.index)
    ensures OutsAre(c, pm[k := v], m, n)
  {
    hide IsSlice;
  }

  /** Some sorted rearrangement of a sequence exists. */
  ghost function Insert(x: Record, s: seq<Record>): (r: seq<Record>) {
    if s == [] || SortKey(x) <= SortKey(s[0]) then [x] + s else [s[0]] + Insert(x, s[1..])
  }

  ghost function SortOf(s: seq<Record>): (r: seq<Record>) {
    if s == [] then [] else Insert(s[0], SortOf(s[1..]))
  }

  lemma {:induction false} InsertHolds(x: Record, s: seq<Record>)
    ensures multiset(Insert(x, s)) == multiset(s) + multiset{x}
  {
    hide SortKey;
    if s != [] && !(SortKey(x) <= SortKey(s[0])) {
      InsertHolds(x, s[1..]);
      assert s == [s[0]] + s[1..];
    }
  }

  lemma {:induction false} InsertSorts(x: Record, s: seq<Record>)
    requires Sorted(s)
    ensures Sorted(Insert(x, s))
  {
    hide SortKey;
    if s != [] && !(SortKey(x) <= SortKey(s[0])) {
      InsertSorts(x, s[1..]);
      InsertHolds(x, s[1..]);
      var r := Insert(x, s[1..]);
      forall i | 0 <= i < |r| ensures SortKey(s[0]) <= SortKey(r[i]) {
        assert r[i] in multiset(r);
        assert r[i] == x || r[i] in s[1..];
      }
    }
  }

  lemma {:induction false} SortOfSorts(s: seq<Record>)
    ensures Sorted(SortOf(s)) && multiset(SortOf(s)) == multiset(s)
  {
    if s != [] {
      var rest := SortOf(s[1..]);
      assert SortOf(s) == Insert(s[0], rest);
      hide Insert, Sorted, SortKey, SortOf;
      SortOfSorts(s[1..]);
      InsertSorts(s[0], rest);
      InsertHolds(s[0], rest);
      assert multiset(s) == multiset(s[1..]) + multiset{s[0]} by { assert s == [s[0]] + s[1..]; }
    }
  }

  // ----- opening the chunks of a tier in turn

  /** The pool after the first `n` chunks of a tier have been opened: missing ones exist now. */
  ghost function Supplied<V>(pm: map<Key, V>, t: nat, n: nat, memory: Key -> V): (pm': map<Key, V>) {
    pm + map k | k in FirstKeys(t, n) - pm.Keys :: memory(k)
  }

  ghost function FirstKeys(t: nat, n: nat): (ks: set<Key>) { set i | 0 <= i < n :: TierKey(t, i) }

  lemma SuppliedNone<V>(pm: map<Key, V>, t: nat, memory: Key -> V)
    ensures Supplied(pm, t, 0, memory) == pm
  {}

  lemma SuppliedOne<V>(pm: map<Key, V>, t: nat, n: nat, memory: Key -> V)
    ensures var k, p := TierKey(t, n), Supplied(pm, t, n, memory);
      && (k in p <==> k in pm) && (k in pm ==> p[k] == pm[k])
      && Supplied(pm, t, n + 1, memory) == if k in pm then p else p[k := memory(k)]
  {
    OneMore(t, n);
    hide FirstKeys, TierKey;
  }

  lemma OneMore(t: nat, n: nat)
    ensures FirstKeys(t, n + 1) == FirstKeys(t, n) + {TierKey(t, n)} && TierKey(t, n) !in FirstKeys(t, n)
  {
    forall k ensures k in FirstKeys(t, n + 1) <==> k in FirstKeys(t, n) || k == TierKey(t, n) {
      IsFirst(t, n, k);
      IsFirst(t, n + 1, k);
    }
    IsFirst(t, n, TierKey(t, n));
  }

  lemma IsFirst(t: nat, n: nat, k: Key)
    ensures k in FirstKeys(t, n) <==> k.index < n && k == TierKey(t, k.index)
  {}
}
