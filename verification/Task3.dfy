/**
 * Task 3: sort entirely in persistent memory, one superblock update per chunk, recovery from the
 * chunk the superblock names.  One step is one persistent-memory operation.
 */
module Task3 {
  import opened Records
  import opened KeyNames
  import opened Tiers
  import opened Pool
  import Sorting

  /*
   * The store: opening a key that exists gives its content.  A missing key cannot be opened when the
   * size variable passed along is 0, but is created, with whatever its memory held, when it is not: a
   * variable that an earlier open has filled in, or that holds the size of a chunk, creates on demand.
   * `create` of a key that exists opens it.
   */
  datatype Pc =
    | Off
    // recovery of the quicksort phase
    | OpenSorted(i: nat) | EraseSorted(i: nat) | SetOdd(i: nat)
    // quicksort phase; `first`: no chunk has been opened yet
    | SetChunk(i: nat, first: bool) | OpenInput(i: nat, first: bool)
    | CreateSorted(i: nat) | WriteSorted(i: nat) | EraseInput(i: nat)
    | SetFirstMerge
    // recovery of a merge
    | EraseSrc(i: nat, p: nat) | OpenSrc(i: nat, p: nat) | OpenDst(i: nat, p: nat) | EraseDst(i: nat, p: nat)
    | SetSkip(i: nat, p: nat)
    // merge phases: Enter is the head of the outer loop, Loop of the inner one
    | Enter(i: nat, p: nat) | Loop(i: nat, p: nat)
    | CreateDst(i: nat, p: nat) | Open1(i: nat, p: nat) | Open2(i: nat, p: nat) | WriteDst(i: nat, p: nat)
    | Erase1(i: nat, p: nat) | Erase2(i: nat, p: nat)
    | SetSplit
    // split
    | EraseOut(i: nat) | OpenMerged(i: nat)
    | SetOut(i: nat) | CreateOut(i: nat) | WriteOut(i: nat)
    | EraseMerged | SetIdle
    | Done
    | Threw

  datatype State = State(pm: Pm, sb: Superblock, pc: Pc)

  ghost predicate Init(c: Config, s: State) {
    && s.pc == Off && s.sb.stage == Idle
    && Has(c, s.pm, 0) && Only(c, s.pm, {0})
  }

  /** Source `i` of merge phase `p` is there; phase 0 wraps to a level that no pool holds. */
  ghost predicate SrcIn(pm: Pm, p: nat, i: nat) { p >= 1 && TierKey(p, i) in pm }

  function DstKey(p: nat, i: nat): (k: Key) { Chunk(p, i / 2, false) }

  /** The result is in the pool and nothing else is. */
  ghost predicate Completed(c: Config, pm: Pm) {
    Finished(c, pm) && Only(c, pm, {c.phases + 2})
  }

  /** The sort is over; asking for it once more finds no input to sort. */
  ghost predicate Over(c: Config, s: State) {
    s.pc.Off? && s.sb.stage == Idle && Completed(c, s.pm)
  }

  /** Where sort_task3 resumes, given the superblock and which keys can be opened with size 0. */
  ghost function Boot(c: Config, pm: Pm, sb: Superblock): (pc: Pc) {
    match sb.stage
    case Idle => SetChunk(0, true)
    case SortChunks => if TierKey(0, sb.index) in pm then OpenSorted(sb.index) else SetOdd(sb.index + 1)
    case MergeChunks =>
      if SrcIn(pm, sb.phase, sb.index) then OpenSrc(sb.index, sb.phase)
      else if SrcIn(pm, sb.phase, sb.index + 1) then EraseSrc(sb.index, sb.phase)
      else SetSkip(sb.index + 2, sb.phase)
    case SplitResult => EraseOut(sb.index)
  }

  /** Opened with a size: a missing key appears with any content. */
  ghost predicate Opens(s: State, s': State, k: Key, next: Pc) {
    && k in s'.pm && s' == s.(pm := s.pm[k := s'.pm[k]], pc := next)
    && (k in s.pm ==> s'.pm == s.pm)
  }

  /** The same, with as many records as the size passed along allows. */
  ghost predicate OpensSized(s: State, s': State, k: Key, n: nat, next: Pc) {
    Opens(s, s', k, next) && (k !in s.pm ==> |s'.pm[k]| == n)
  }

  /** Created to be overwritten: until then it may hold anything. */
  ghost predicate Creates(s: State, s': State, k: Key, next: Pc) {
    k in s'.pm && s' == s.(pm := s.pm[k := s'.pm[k]], pc := next)
  }

  ghost predicate Erases(s: State, s': State, k: Key, next: Pc) {
    s' == s.(pm := s.pm - {k}, pc := next)
  }

  /** The copy takes the slice, or anything where the chunk is too short for it. */
  ghost predicate Cut(c: Config, m: seq<Record>, i: nat, v: seq<Record>) {
    IsSlice(m, c.records, i, v) || (|m| < i * c.records + c.records && |v| == c.records)
  }

  /** Input chunks per chunk of the tier. */
  function Width(t: nat): (w: nat)
    ensures w >= 1
  {
    if t == 0 then 1 else Pow2(t - 1)
  }

  /** Records per chunk of the tier. */
  function ChunkSize(c: Config, t: nat): (n: nat) { c.records * Width(t) }

  /** One uninterrupted step. */
  ghost predicate Next(c: Config, s: State, s': State) {
    match s.pc
    case Off => s' == s.(pc := Boot(c, s.pm, s.sb))
    case OpenSorted(i) => Opens(s, s', TierKey(1, i), EraseSorted(i))
    case EraseSorted(i) => Erases(s, s', TierKey(1, i), SetChunk(i, true))
    case SetOdd(i) => s' == s.(sb := s.sb.(stage := MergeChunks, index := i), pc := SetChunk(i, true))
    case SetChunk(i, first) =>
      if i < c.Chunks() then s' == s.(sb := s.sb.(stage := SortChunks, index := i), pc := OpenInput(i, first))
      else s' == s.(pc := SetFirstMerge)
    case OpenInput(i, first) =>
      if first && TierKey(0, i) !in s.pm then s' == s.(pc := Threw)
      else OpensSized(s, s', TierKey(0, i), c.records, CreateSorted(i))
    case CreateSorted(i) => Creates(s, s', TierKey(1, i), WriteSorted(i))
    case WriteSorted(i) =>
      && TierKey(0, i) in s.pm && TierKey(1, i) in s'.pm
      && Sorted(s'.pm[TierKey(1, i)])
      && multiset(s'.pm[TierKey(1, i)]) == multiset(s.pm[TierKey(0, i)])
      && s' == s.(pm := s.pm[TierKey(1, i) := s'.pm[TierKey(1, i)]], pc := EraseInput(i))
    case EraseInput(i) => Erases(s, s', TierKey(0, i), SetChunk(i + 1, false))
    case SetFirstMerge => s' == s.(sb := Superblock(MergeChunks, 0, 1), pc := Enter(0, 1))
    case EraseSrc(i, p) => Erases(s, s', TierKey(p, i + 1), SetSkip(i + 2, p))
    case OpenSrc(i, p) => Opens(s, s', TierKey(p, i + 1), OpenDst(i, p))
    case OpenDst(i, p) => Opens(s, s', DstKey(p, i), EraseDst(i, p))
    case EraseDst(i, p) => Erases(s, s', DstKey(p, i), Enter(i, p))
    case SetSkip(i, p) => s' == s.(sb := Superblock(MergeChunks, i, p), pc := Enter(i, p))
    case Enter(i, p) =>
      var q := if p == 0 then 1 else p;
      if q > c.phases then s' == s.(pc := SetSplit)
      else s' == s.(sb := Superblock(MergeChunks, i, q), pc := Loop(i, q))
    case Loop(i, p) =>
      if i < TierSize(c, p) then s' == s.(sb := Superblock(MergeChunks, i, p), pc := CreateDst(i, p))
      else s' == s.(pc := Enter(0, p + 1))
    case CreateDst(i, p) => Creates(s, s', DstKey(p, i), Open1(i, p))
    case Open1(i, p) => OpensSized(s, s', TierKey(p, i), ChunkSize(c, p), Open2(i, p))
    case Open2(i, p) => OpensSized(s, s', TierKey(p, i + 1), ChunkSize(c, p), WriteDst(i, p))
    case WriteDst(i, p) =>
      && TierKey(p, i) in s.pm && TierKey(p, i + 1) in s.pm
      && s' == s.(pm := s.pm[DstKey(p, i) := Sorting.Merge(s.pm[TierKey(p, i)], s.pm[TierKey(p, i + 1)])],
                  pc := Erase1(i, p))
    case Erase1(i, p) => Erases(s, s', TierKey(p, i), Erase2(i, p))
    case Erase2(i, p) => Erases(s, s', TierKey(p, i + 1), Loop(i + 2, p))
    case SetSplit => s' == s.(sb := s.sb.(stage := SplitResult, index := 0), pc := OpenMerged(0))
    case EraseOut(i) => Erases(s, s', OutKey(c, i), OpenMerged(i))
    case OpenMerged(i) => OpensSized(s, s', MergedKey(c), ChunkSize(c, c.phases + 1), SetOut(i))
    case SetOut(i) =>
      if i < c.Chunks() then s' == s.(sb := s.sb.(stage := SplitResult, index := i), pc := CreateOut(i))
      else s' == s.(pc := EraseMerged)
    case CreateOut(i) => Creates(s, s', OutKey(c, i), WriteOut(i))
    case WriteOut(i) =>
      && MergedKey(c) in s.pm && OutKey(c, i) in s'.pm
      && Cut(c, s.pm[MergedKey(c)], i, s'.pm[OutKey(c, i)])
      && s' == s.(pm := s.pm[OutKey(c, i) := s'.pm[OutKey(c, i)]], pc := SetOut(i + 1))
    case EraseMerged => Erases(s, s', MergedKey(c), SetIdle)
    case SetIdle => s' == s.(sb := s.sb.(stage := Idle), pc := Done)
    case Done => false
    case Threw => false
  }

  ghost predicate Crash(s: State, s': State) {
    s' == s.(pc := Off)
  }

  // ----- pool shapes

  /** Chunks below `i` are sorted, chunks above it untouched; chunk `i` itself is unconstrained. */
  ghost predicate SortPoolExcept(c: Config, pm: Pm, i: nat) {
    && Only(c, pm, {0, 1})
    && AllRight(c, pm, 1, 0, i) && NoneOf(pm, 0, 0, i)
    && AllRight(c, pm, 0, i + 1, c.Chunks()) && NoneOf(pm, 1, i + 1, c.Chunks())
  }

  ghost predicate SortPool(c: Config, pm: Pm, i: nat) {
    && SortPoolExcept(c, pm, i)
    && AllRight(c, pm, 0, i, c.Chunks()) && NoneOf(pm, 1, i, c.Chunks())
  }

  /** Destinations complete when `i` sources of phase `p` are consumed. */
  function Merged(c: Config, p: nat, i: nat): (n: nat) {
    if i < TierSize(c, p) then i / 2 else TierSize(c, p + 1)
  }

  /** Pairs below `i` are merged, pairs above it are not; the pair at `i` is unconstrained. */
  ghost predicate MergePoolExcept(c: Config, pm: Pm, p: nat, i: nat) {
    && Only(c, pm, {p, p + 1})
    && NoneOf(pm, p, 0, i) && AllRight(c, pm, p, i + 2, TierSize(c, p))
    && AllRight(c, pm, p + 1, 0, Merged(c, p, i)) && NoneOf(pm, p + 1, i / 2 + 1, TierSize(c, p + 1))
  }

  ghost predicate MergePool(c: Config, pm: Pm, p: nat, i: nat) {
    && MergePoolExcept(c, pm, p, i)
    && AllRight(c, pm, p, i, TierSize(c, p)) && NoneOf(pm, p + 1, i / 2, TierSize(c, p + 1))
  }

  /** Outputs below `n` are written, none at or above `m` exists, and the merged chunk is there. */
  ghost predicate SplitPool(c: Config, pm: Pm, n: nat, m: nat) {
    && Only(c, pm, {c.phases + 1, c.phases + 2})
    && AllRight(c, pm, c.phases + 1, 0, 1)
    && OutsAre(c, pm, pm[MergedKey(c)], n)
    && NoneOf(pm, c.phases + 2, m, c.Chunks())
  }

  ghost predicate SrcRight(c: Config, pm: Pm, p: nat, i: nat) { AllRight(c, pm, p, i, i + 2) }

  ghost predicate DstRight(c: Config, pm: Pm, p: nat, i: nat) { AllRight(c, pm, p + 1, i / 2, i / 2 + 1) }

  ghost predicate SrcBothPresent(pm: Pm, p: nat, i: nat) {
    TierKey(p, i) in pm && TierKey(p, i + 1) in pm
  }

  ghost predicate InPhase(c: Config, p: nat, i: nat) {
    1 <= p <= c.phases && i % 2 == 0 && i < TierSize(c, p)
  }

  /** What the pool holds, read off the superblock alone. */
  ghost predicate Durable(c: Config, pm: Pm, sb: Superblock) {
    match sb.stage
    case Idle => SortPool(c, pm, 0) || Completed(c, pm)
    case SortChunks =>
      && sb.index < c.Chunks() && SortPoolExcept(c, pm, sb.index)
      && (AllRight(c, pm, 0, sb.index, sb.index + 1) || SortPool(c, pm, sb.index + 1))
    case MergeChunks =>
      && 1 <= sb.phase <= c.phases && sb.index % 2 == 0
      && MergePoolExcept(c, pm, sb.phase, sb.index)
      && (sb.index < TierSize(c, sb.phase) ==>
            if TierKey(sb.phase, sb.index) in pm then SrcRight(c, pm, sb.phase, sb.index)
            else DstRight(c, pm, sb.phase, sb.index))
    case SplitResult => sb.index < c.Chunks() && SplitPool(c, pm, sb.index, sb.index + 1)
  }

  /** Recovery has written MERGE while the pool is still in the quicksort phase. */
  ghost predicate OddWindow(c: Config, pm: Pm, sb: Superblock) {
    sb.stage == MergeChunks && 1 <= sb.index <= c.Chunks() && SortPool(c, pm, sb.index)
  }

  /** The merged chunk is erased, but the superblock still says the split is going on. */
  ghost predicate LastWindow(c: Config, pm: Pm, sb: Superblock) {
    sb.stage == SplitResult && sb.index == c.Chunks() - 1 && Completed(c, pm)
  }

  ghost predicate InWindow(c: Config, s: State) {
    OddWindow(c, s.pm, s.sb) || LastWindow(c, s.pm, s.sb)
  }

  ghost predicate AtSort(s: State, i: nat) { s.sb.stage == SortChunks && s.sb.index == i }

  ghost predicate AtMerge(s: State, i: nat, p: nat) { s.sb == Superblock(MergeChunks, i, p) }

  ghost predicate AtSplit(s: State, i: nat) { s.sb.stage == SplitResult && s.sb.index == i }

  /** The pair at `i` has both sources; its destination is anything. */
  ghost predicate Unmerged(c: Config, pm: Pm, sb: Superblock, i: nat, p: nat) {
    && InPhase(c, p, i) && sb == Superblock(MergeChunks, i, p)
    && MergePoolExcept(c, pm, p, i) && SrcRight(c, pm, p, i)
  }

  ghost predicate PcInv(c: Config, s: State) {
    match s.pc
    case Off => Durable(c, s.pm, s.sb)
    case OpenSorted(i) =>
      && i < c.Chunks() && AtSort(s, i)
      && SortPoolExcept(c, s.pm, i) && AllRight(c, s.pm, 0, i, i + 1)
    case EraseSorted(i) =>
      && i < c.Chunks() && AtSort(s, i)
      && SortPoolExcept(c, s.pm, i) && AllRight(c, s.pm, 0, i, i + 1)
    case SetOdd(i) => 1 <= i <= c.Chunks() && AtSort(s, i - 1) && SortPool(c, s.pm, i)
    case SetChunk(i, _) =>
      && i <= c.Chunks() && SortPool(c, s.pm, i)
      && (Durable(c, s.pm, s.sb) || OddWindow(c, s.pm, s.sb))
    case OpenInput(i, _) => i < c.Chunks() && AtSort(s, i) && SortPool(c, s.pm, i)
    case CreateSorted(i) => i < c.Chunks() && AtSort(s, i) && SortPool(c, s.pm, i)
    case WriteSorted(i) =>
      && i < c.Chunks() && AtSort(s, i)
      && SortPoolExcept(c, s.pm, i) && AllRight(c, s.pm, 0, i, i + 1)
    case EraseInput(i) =>
      && i < c.Chunks() && AtSort(s, i)
      && SortPoolExcept(c, s.pm, i) && AllRight(c, s.pm, 0, i, i + 1) && AllRight(c, s.pm, 1, i, i + 1)
    case SetFirstMerge =>
      && SortPool(c, s.pm, c.Chunks())
      && (Durable(c, s.pm, s.sb) || OddWindow(c, s.pm, s.sb))
    case EraseSrc(i, p) =>
      && InPhase(c, p, i) && AtMerge(s, i, p) && MergePoolExcept(c, s.pm, p, i) && DstRight(c, s.pm, p, i)
      && TierKey(p, i) !in s.pm
    case OpenSrc(i, p) => Unmerged(c, s.pm, s.sb, i, p)
    case OpenDst(i, p) => Unmerged(c, s.pm, s.sb, i, p)
    case EraseDst(i, p) => Unmerged(c, s.pm, s.sb, i, p)
    case SetSkip(i, p) =>
      && 1 <= p <= c.phases && i % 2 == 0 && MergePool(c, s.pm, p, i)
      && s.sb.stage == MergeChunks && Durable(c, s.pm, s.sb)
    case Enter(i, p) =>
      && s.sb.stage == MergeChunks && Durable(c, s.pm, s.sb) && i % 2 == 0
      && if p == c.phases + 1 then i == 0 && SplitPool(c, s.pm, 0, 0)
         else 1 <= p <= c.phases && MergePool(c, s.pm, p, i)
    case Loop(i, p) =>
      && 1 <= p <= c.phases && i % 2 == 0 && MergePool(c, s.pm, p, i)
      && s.sb.stage == MergeChunks && Durable(c, s.pm, s.sb)
    case CreateDst(i, p) => InPhase(c, p, i) && AtMerge(s, i, p) && MergePool(c, s.pm, p, i)
    case Open1(i, p) => Unmerged(c, s.pm, s.sb, i, p)
    case Open2(i, p) => Unmerged(c, s.pm, s.sb, i, p)
    case WriteDst(i, p) => Unmerged(c, s.pm, s.sb, i, p)
    case Erase1(i, p) =>
      && InPhase(c, p, i) && AtMerge(s, i, p) && MergePoolExcept(c, s.pm, p, i) && SrcRight(c, s.pm, p, i)
      && DstRight(c, s.pm, p, i)
    case Erase2(i, p) =>
      && InPhase(c, p, i) && AtMerge(s, i, p) && MergePoolExcept(c, s.pm, p, i) && DstRight(c, s.pm, p, i)
      && TierKey(p, i) !in s.pm
    case SetSplit => s.sb.stage == MergeChunks && Durable(c, s.pm, s.sb) && SplitPool(c, s.pm, 0, 0)
    case EraseOut(i) => i < c.Chunks() && AtSplit(s, i) && SplitPool(c, s.pm, i, i + 1)
    case OpenMerged(i) => i < c.Chunks() && AtSplit(s, i) && SplitPool(c, s.pm, i, i)
    case SetOut(i) =>
      && s.sb.stage == SplitResult && s.sb.index <= i <= s.sb.index + 1 && s.sb.index < c.Chunks()
      && SplitPool(c, s.pm, i, i)
    case CreateOut(i) => i < c.Chunks() && AtSplit(s, i) && SplitPool(c, s.pm, i, i)
    case WriteOut(i) => i < c.Chunks() && AtSplit(s, i) && SplitPool(c, s.pm, i, i + 1)
    case EraseMerged => AtSplit(s, c.Chunks() - 1) && SplitPool(c, s.pm, c.Chunks(), c.Chunks())
    case SetIdle => LastWindow(c, s.pm, s.sb)
    case Done => s.sb.stage == Idle && Completed(c, s.pm)
    case Threw => false
  }

  /** Between the windows the superblock alone tells where every record is. */
  ghost predicate Inv(c: Config, s: State) {
    PcInv(c, s) && (Durable(c, s.pm, s.sb) || InWindow(c, s))
  }

  // ----- phase arithmetic and phase changes

  lemma MergeArith(c: Config, p: nat, i: nat)
    requires InPhase(c, p, i)
    ensures TierSize(c, p) == 2 * TierSize(c, p + 1)
    ensures i + 2 <= TierSize(c, p) && i / 2 < TierSize(c, p + 1)
    ensures Merged(c, p, i) == i / 2 && Merged(c, p, i + 2) == i / 2 + 1
    ensures DstKey(p, i) == TierKey(p + 1, i / 2) && (i + 2) / 2 == i / 2 + 1
  {
    TierHalves(c, p);
  }

  lemma OnlyShrinks(c: Config, pm: Pm, t: nat, u: nat)
    requires Only(c, pm, {t, t + 1}) && NoneOf(pm, t, 0, TierSize(c, t))
    ensures Only(c, pm, {t + 1, u})
  {
    forall k | k in pm ensures TierOf(k) == t + 1 {
      assert TierOf(k) == t ==> k == TierKey(t, k.index);
    }
  }

  /** All chunks sorted is the start of merge phase 1. */
  lemma FirstTier(c: Config, pm: Pm)
    requires c.Valid() && SortPool(c, pm, c.Chunks())
    ensures MergePool(c, pm, 1, 0)
  {
    hide Good, Pow2;
    TierHalves(c, 1);
    OnlyShrinks(c, pm, 0, 2);
  }

  /** The end of a merge phase is the start of the next one, or of the split. */
  lemma NextTier(c: Config, pm: Pm, p: nat, i: nat)
    requires c.Valid() && 1 <= p <= c.phases && i % 2 == 0 && TierSize(c, p) <= i && MergePool(c, pm, p, i)
    ensures p < c.phases ==> MergePool(c, pm, p + 1, 0)
    ensures p == c.phases ==> SplitPool(c, pm, 0, 0)
  {
    hide Good, IsSlice;
    TierHalves(c, p);
    OnlyShrinks(c, pm, p, p + 2);
    if p < c.phases { TierHalves(c, p + 1); }
  }

  /** Touching only the two keys of chunk `i` during the quicksort phase. */
  lemma SortTouch(c: Config, pm: Pm, i: nat, k: Key, v: seq<Record>)
    requires i < c.Chunks() && SortPoolExcept(c, pm, i)
    requires k == TierKey(0, i) || k == TierKey(1, i)
    ensures SortPoolExcept(c, pm - {k}, i) && SortPoolExcept(c, pm[k := v], i)
    ensures AllRight(c, pm, 1 - TierOf(k), i, i + 1) ==> AllRight(c, pm - {k}, 1 - TierOf(k), i, i + 1)
    ensures AllRight(c, pm, 1 - TierOf(k), i, i + 1) ==> AllRight(c, pm[k := v], 1 - TierOf(k), i, i + 1)
  {
    hide AllRight, NoneOf, Only, Pow2;
    var n, t := c.Chunks(), 1 - TierOf(k);
    OnlyErase(c, pm, k, {0, 1});
    OnlyWrite(c, pm, k, v, {0, 1});
    RightErase(c, pm, k, 1, 0, i);
    RightWrite(c, pm, k, v, 1, 0, i);
    NoneErase(pm, k, 0, 0, i);
    NoneWrite(pm, k, v, 0, 0, i);
    RightErase(c, pm, k, 0, i + 1, n);
    RightWrite(c, pm, k, v, 0, i + 1, n);
    NoneErase(pm, k, 1, i + 1, n);
    NoneWrite(pm, k, v, 1, i + 1, n);
    if AllRight(c, pm, t, i, i + 1) {
      RightErase(c, pm, k, t, i, i + 1);
      RightWrite(c, pm, k, v, t, i, i + 1);
    }
  }

  /** Chunk `i` is untouched, or done: then the pool is settled around it. */
  lemma SortSettled(c: Config, pm: Pm, i: nat)
    requires i < c.Chunks() && SortPoolExcept(c, pm, i)
    ensures AllRight(c, pm, 0, i, i + 1) && TierKey(1, i) !in pm ==> SortPool(c, pm, i)
    ensures AllRight(c, pm, 1, i, i + 1) && TierKey(0, i) !in pm ==> SortPool(c, pm, i + 1)
  {
    hide Holds, Only, Pow2;
  }

  /** Touching only the destination of the pair at `i`. */
  lemma DstTouch(c: Config, pm: Pm, p: nat, i: nat, v: seq<Record>)
    requires InPhase(c, p, i) && MergePoolExcept(c, pm, p, i) && SrcRight(c, pm, p, i)
    ensures var k := DstKey(p, i);
      && MergePoolExcept(c, pm - {k}, p, i) && SrcRight(c, pm - {k}, p, i)
      && MergePoolExcept(c, pm[k := v], p, i) && SrcRight(c, pm[k := v], p, i)
  {
    hide Pow2, Only, AllRight, NoneOf;
    MergeArith(c, p, i);
    var k, n, m := DstKey(p, i), TierSize(c, p), TierSize(c, p + 1);
    OnlyErase(c, pm, k, {p, p + 1});
    OnlyWrite(c, pm, k, v, {p, p + 1});
    NoneErase(pm, k, p, 0, i);
    NoneWrite(pm, k, v, p, 0, i);
    RightErase(c, pm, k, p, i + 2, n);
    RightWrite(c, pm, k, v, p, i + 2, n);
    RightErase(c, pm, k, p + 1, 0, Merged(c, p, i));
    RightWrite(c, pm, k, v, p + 1, 0, Merged(c, p, i));
    NoneErase(pm, k, p + 1, i / 2 + 1, m);
    NoneWrite(pm, k, v, p + 1, i / 2 + 1, m);
    RightErase(c, pm, k, p, i, i + 2);
    RightWrite(c, pm, k, v, p, i, i + 2);
  }

  /** Both sources right and no destination: the pool is settled at `i`. */
  lemma MergeSettled(c: Config, pm: Pm, p: nat, i: nat)
    requires InPhase(c, p, i)
    ensures MergePool(c, pm, p, i) <==>
            MergePoolExcept(c, pm, p, i) && SrcRight(c, pm, p, i) && DstKey(p, i) !in pm
  {
    hide Pow2, Only, Holds;
    MergeArith(c, p, i);
    if MergePoolExcept(c, pm, p, i) && SrcRight(c, pm, p, i) && DstKey(p, i) !in pm {
      var q, h := p + 1, i / 2;
      forall j | h <= j < TierSize(c, q) ensures TierKey(q, j) !in pm { }
    }
  }

  lemma PairDurable(c: Config, pm: Pm, p: nat, i: nat)
    requires InPhase(c, p, i) && MergePoolExcept(c, pm, p, i)
    requires SrcRight(c, pm, p, i) || (DstRight(c, pm, p, i) && TierKey(p, i) !in pm)
    ensures Durable(c, pm, Superblock(MergeChunks, i, p))
  {
    hide MergePoolExcept, DstRight, Holds, Pow2;
  }

  lemma SettledDurable(c: Config, pm: Pm, p: nat, i: nat)
    requires 1 <= p <= c.phases && i % 2 == 0 && MergePool(c, pm, p, i)
    ensures Durable(c, pm, Superblock(MergeChunks, i, p))
  {
    hide MergePoolExcept, Holds, Pow2, Only;
    if i < TierSize(c, p) { MergeArith(c, p, i); }
  }

  lemma SrcRightPresent(c: Config, pm: Pm, p: nat, i: nat)
    requires SrcRight(c, pm, p, i) && 1 <= p
    ensures SrcBothPresent(pm, p, i)
    ensures i % 2 == 0 && p <= c.phases ==>
            Good(c, p - 1, 2 * (i / 2), pm[TierKey(p, i)]) && Good(c, p - 1, 2 * (i / 2) + 1, pm[TierKey(p, i + 1)])
  {
    hide Good;
  }

  /** A merged pair with both sources gone: the next pair is up. */
  lemma PairDone(c: Config, pm: Pm, p: nat, i: nat)
    requires InPhase(c, p, i) && MergePoolExcept(c, pm, p, i) && DstRight(c, pm, p, i)
    requires TierKey(p, i) !in pm && TierKey(p, i + 1) !in pm
    ensures MergePool(c, pm, p, i + 2)
  {
    hide Good, Pow2, Only;
    MergeArith(c, p, i);
  }

  /** Erasing a source of an already merged pair. */
  lemma EraseMergedSource(c: Config, pm: Pm, p: nat, i: nat, k: Key)
    requires InPhase(c, p, i) && MergePoolExcept(c, pm, p, i) && DstRight(c, pm, p, i)
    requires k == TierKey(p, i) || k == TierKey(p, i + 1)
    ensures MergePoolExcept(c, pm - {k}, p, i) && DstRight(c, pm - {k}, p, i)
  {
    hide Good, Pow2, Only, AllRight, NoneOf;
    MergeArith(c, p, i);
    OnlyErase(c, pm, k, {p, p + 1});
    NoneErase(pm, k, p, 0, i);
    RightErase(c, pm, k, p, i + 2, TierSize(c, p));
    RightErase(c, pm, k, p + 1, 0, Merged(c, p, i));
    NoneErase(pm, k, p + 1, i / 2 + 1, TierSize(c, p + 1));
    RightErase(c, pm, k, p + 1, i / 2, i / 2 + 1);
  }

  /** With all outputs written, dropping the merged chunk leaves the finished pool. */
  lemma SplitDone(c: Config, pm: Pm)
    requires c.Valid() && SplitPool(c, pm, c.Chunks(), c.Chunks())
    ensures Completed(c, pm - {MergedKey(c)})
  {
    hide Good, IsSlice, OutsAre;
    var m := pm[MergedKey(c)];
    OutsErase(c, pm, MergedKey(c), m, c.Chunks());
    assert MergedKey(c) == TierKey(c.phases + 1, 0);
    assert Finished(c, pm - {MergedKey(c)});
  }

  lemma SplitWiden(c: Config, pm: Pm, i: nat)
    requires SplitPool(c, pm, i, i)
    ensures SplitPool(c, pm, i, i + 1)
  {
    hide Pow2, Only, Holds, IsSlice;
  }

  /** Touching only output `i`. */
  lemma OutTouch(c: Config, pm: Pm, i: nat, v: seq<Record>)
    requires i < c.Chunks() && SplitPool(c, pm, i, i + 1)
    ensures SplitPool(c, pm - {OutKey(c, i)}, i, i)
    ensures SplitPool(c, pm[OutKey(c, i) := v], i, i + 1)
    ensures IsSlice(pm[MergedKey(c)], c.records, i, v) ==> SplitPool(c, pm[OutKey(c, i) := v], i + 1, i + 1)
  {
    hide Pow2, Only, Holds, IsSlice;
    var k, ts := OutKey(c, i), {c.phases + 1, c.phases + 2};
    assert TierKey(c.phases + 1, 0) in pm;
    OnlyErase(c, pm, k, ts);
    OnlyWrite(c, pm, k, v, ts);
  }

  // ----- every step keeps it

  lemma OffKeeps(c: Config, s: State, s': State)
    requires c.Valid() && Inv(c, s) && s.pc.Off? && Next(c, s, s') && !Over(c, s)
    ensures Inv(c, s')
  {
    hide Good, IsSlice, Pow2, Only, Completed;
    if s.sb.stage == MergeChunks {
      OffMergeKeeps(c, s, s');
    }
  }

  lemma OffMergeKeeps(c: Config, s: State, s': State)
    requires c.Valid() && Inv(c, s) && s.pc.Off? && Next(c, s, s') && s.sb.stage == MergeChunks
    ensures Inv(c, s')
  {
    hide MergePool, Pow2, Completed, AllRight, NoneOf, Only;
    var i, p := s.sb.index, s.sb.phase;
    if i >= TierSize(c, p) {
      PastTheEnd(c, s.pm, p, i);
    } else if !SrcIn(s.pm, p, i) && !SrcIn(s.pm, p, i + 1) {
      PairDone(c, s.pm, p, i);
    }
  }

  lemma PastTheEnd(c: Config, pm: Pm, p: nat, i: nat)
    requires 1 <= p <= c.phases && i % 2 == 0 && TierSize(c, p) <= i && MergePoolExcept(c, pm, p, i)
    ensures MergePool(c, pm, p, i + 2)
    ensures !SrcIn(pm, p, i) && !SrcIn(pm, p, i + 1)
  {
    hide Good, Pow2;
    TierHalves(c, p);
  }

  lemma OpenSortedKeeps(c: Config, s: State, s': State)
    requires c.Valid() && Inv(c, s) && s.pc.OpenSorted? && Next(c, s, s')
    ensures Inv(c, s')
  {
    hide SortPoolExcept, SortPool, Pow2, Holds;
    SortTouch(c, s.pm, s.pc.i, TierKey(1, s.pc.i), s'.pm[TierKey(1, s.pc.i)]);
  }

  lemma EraseSortedKeeps(c: Config, s: State, s': State)
    requires c.Valid() && Inv(c, s) && s.pc.EraseSorted? && Next(c, s, s')
    ensures Inv(c, s')
  {
    hide SortPoolExcept, SortPool, Pow2, Holds;
    SortTouch(c, s.pm, s.pc.i, TierKey(1, s.pc.i), []);
    SortSettled(c, s'.pm, s.pc.i);
  }

  lemma SetOddKeeps(c: Config, s: State, s': State)
    requires c.Valid() && Inv(c, s) && s.pc.SetOdd? && Next(c, s, s')
    ensures Inv(c, s')
  {
    hide Good, IsSlice, Pow2;
  }

  lemma SetChunkKeeps(c: Config, s: State, s': State)
    requires c.Valid() && Inv(c, s) && s.pc.SetChunk? && Next(c, s, s')
    ensures Inv(c, s')
  {
    hide Good, IsSlice, Pow2;
  }

  lemma OpenInputKeeps(c: Config, s: State, s': State)
    requires c.Valid() && Inv(c, s) && s.pc.OpenInput? && Next(c, s, s')
    ensures Inv(c, s')
  {
    hide Good, IsSlice, Pow2;
    assert TierKey(0, s.pc.i) in s.pm;
  }

  lemma CreateSortedKeeps(c: Config, s: State, s': State)
    requires c.Valid() && Inv(c, s) && s.pc.CreateSorted? && Next(c, s, s')
    ensures Inv(c, s')
  {
    hide Good, IsSlice, Pow2;
  }

  lemma WriteSortedKeeps(c: Config, s: State, s': State)
    requires c.Valid() && Inv(c, s) && s.pc.WriteSorted? && Next(c, s, s')
    ensures Inv(c, s')
  {
    hide SortPoolExcept, SortPool, Pow2, Good, Sorted;
    var k := TierKey(1, s.pc.i);
    SortTouch(c, s.pm, s.pc.i, k, s'.pm[k]);
    GoodFromSorted(c, s.pc.i, s'.pm[k]);
  }

  lemma EraseInputKeeps(c: Config, s: State, s': State)
    requires c.Valid() && Inv(c, s) && s.pc.EraseInput? && Next(c, s, s')
    ensures Inv(c, s')
  {
    hide SortPoolExcept, SortPool, Pow2, Holds;
    SortTouch(c, s.pm, s.pc.i, TierKey(0, s.pc.i), []);
    SortSettled(c, s'.pm, s.pc.i);
  }

  lemma SetFirstMergeKeeps(c: Config, s: State, s': State)
    requires c.Valid() && Inv(c, s) && s.pc.SetFirstMerge? && Next(c, s, s')
    ensures Inv(c, s')
  {
    hide Good, IsSlice, Pow2;
    FirstTier(c, s.pm);
    TierHalves(c, 1);
  }

  lemma EraseSrcKeeps(c: Config, s: State, s': State)
    requires c.Valid() && Inv(c, s) && s.pc.EraseSrc? && Next(c, s, s')
    ensures Inv(c, s')
  {
    hide MergePoolExcept, MergePool, DstRight, SrcRight, Durable, InWindow, Pow2;
    EraseMergedSource(c, s.pm, s.pc.p, s.pc.i, TierKey(s.pc.p, s.pc.i + 1));
    PairDone(c, s'.pm, s.pc.p, s.pc.i);
    PairDurable(c, s'.pm, s.pc.p, s.pc.i);
  }

  /** With both sources there, opening one of them changes nothing. */
  lemma OpenSourceKeeps(c: Config, s: State, s': State)
    requires c.Valid() && Inv(c, s) && (s.pc.OpenSrc? || s.pc.Open1? || s.pc.Open2?) && Next(c, s, s')
    ensures Inv(c, s')
  {
    hide Unmerged, Durable, OddWindow, LastWindow, Pow2;
    UnmergedPresent(c, s.pm, s.sb, s.pc.i, s.pc.p);
  }

  lemma UnmergedPresent(c: Config, pm: Pm, sb: Superblock, i: nat, p: nat)
    requires Unmerged(c, pm, sb, i, p)
    ensures SrcBothPresent(pm, p, i)
  {
    hide MergePoolExcept, SrcRight, Pow2;
    SrcRightPresent(c, pm, p, i);
  }

  lemma OpenDstKeeps(c: Config, s: State, s': State)
    requires c.Valid() && Inv(c, s) && s.pc.OpenDst? && Next(c, s, s')
    ensures Inv(c, s')
  {
    hide Durable, MergePoolExcept, MergePool, Pow2, SrcRight, DstRight, InWindow;
    DstTouch(c, s.pm, s.pc.p, s.pc.i, s'.pm[DstKey(s.pc.p, s.pc.i)]);
    PairDurable(c, s'.pm, s.pc.p, s.pc.i);
  }

  lemma EraseDstKeeps(c: Config, s: State, s': State)
    requires c.Valid() && Inv(c, s) && s.pc.EraseDst? && Next(c, s, s')
    ensures Inv(c, s')
  {
    hide Durable, MergePoolExcept, MergePool, Pow2, SrcRight, DstRight, InWindow;
    MergeArith(c, s.pc.p, s.pc.i);
    DstTouch(c, s.pm, s.pc.p, s.pc.i, []);
    MergeSettled(c, s'.pm, s.pc.p, s.pc.i);
    PairDurable(c, s'.pm, s.pc.p, s.pc.i);
  }

  lemma SetSkipKeeps(c: Config, s: State, s': State)
    requires c.Valid() && Inv(c, s) && s.pc.SetSkip? && Next(c, s, s')
    ensures Inv(c, s')
  {
    hide Durable, MergePool, Pow2, InWindow;
    SettledDurable(c, s.pm, s.pc.p, s.pc.i);
  }

  lemma EnterKeeps(c: Config, s: State, s': State)
    requires c.Valid() && Inv(c, s) && s.pc.Enter? && Next(c, s, s')
    ensures Inv(c, s')
  {
    hide Durable, MergePool, Pow2, InWindow, SplitPool;
    if s.pc.p <= c.phases { SettledDurable(c, s.pm, s.pc.p, s.pc.i); }
  }

  lemma LoopKeeps(c: Config, s: State, s': State)
    requires c.Valid() && Inv(c, s) && s.pc.Loop? && Next(c, s, s')
    ensures Inv(c, s')
  {
    hide Durable, MergePool, Pow2, InWindow, SplitPool;
    SettledDurable(c, s.pm, s.pc.p, s.pc.i);
    if s.pc.i >= TierSize(c, s.pc.p) { NextTier(c, s.pm, s.pc.p, s.pc.i); }
  }

  lemma CreateDstKeeps(c: Config, s: State, s': State)
    requires c.Valid() && Inv(c, s) && s.pc.CreateDst? && Next(c, s, s')
    ensures Inv(c, s')
  {
    hide Durable, MergePoolExcept, MergePool, Pow2, SrcRight, DstRight, InWindow;
    MergeSettled(c, s.pm, s.pc.p, s.pc.i);
    DstTouch(c, s.pm, s.pc.p, s.pc.i, s'.pm[DstKey(s.pc.p, s.pc.i)]);
    PairDurable(c, s'.pm, s.pc.p, s.pc.i);
  }

  lemma WriteDstKeeps(c: Config, s: State, s': State)
    requires c.Valid() && Inv(c, s) && s.pc.WriteDst? && Next(c, s, s')
    ensures Inv(c, s')
  {
    hide MergePoolExcept, MergePool, Pow2, SrcRight, Good, Sorting.Merge;
    var i, p := s.pc.i, s.pc.p;
    var k := DstKey(p, i);
    MergeArith(c, p, i);
    SrcRightPresent(c, s.pm, p, i);
    GoodMerge(c, p - 1, i / 2, s.pm[TierKey(p, i)], s.pm[TierKey(p, i + 1)]);
    DstTouch(c, s.pm, p, i, s'.pm[k]);
    SrcRightPresent(c, s'.pm, p, i);
  }

  lemma Erase1Keeps(c: Config, s: State, s': State)
    requires c.Valid() && Inv(c, s) && s.pc.Erase1? && Next(c, s, s')
    ensures Inv(c, s')
  {
    hide MergePoolExcept, MergePool, DstRight, SrcRight, Durable, InWindow, Pow2;
    EraseMergedSource(c, s.pm, s.pc.p, s.pc.i, TierKey(s.pc.p, s.pc.i));
    PairDurable(c, s'.pm, s.pc.p, s.pc.i);
  }

  lemma Erase2Keeps(c: Config, s: State, s': State)
    requires c.Valid() && Inv(c, s) && s.pc.Erase2? && Next(c, s, s')
    ensures Inv(c, s')
  {
    hide MergePoolExcept, MergePool, DstRight, SrcRight, Durable, InWindow, Pow2;
    EraseMergedSource(c, s.pm, s.pc.p, s.pc.i, TierKey(s.pc.p, s.pc.i + 1));
    PairDone(c, s'.pm, s.pc.p, s.pc.i);
    PairDurable(c, s'.pm, s.pc.p, s.pc.i);
  }

  lemma SetSplitKeeps(c: Config, s: State, s': State)
    requires c.Valid() && Inv(c, s) && s.pc.SetSplit? && Next(c, s, s')
    ensures Inv(c, s')
  {
    hide Good, IsSlice, Pow2;
  }

  lemma EraseOutKeeps(c: Config, s: State, s': State)
    requires c.Valid() && Inv(c, s) && s.pc.EraseOut? && Next(c, s, s')
    ensures Inv(c, s')
  {
    hide SplitPool, Pow2, Completed, IsSlice;
    OutTouch(c, s.pm, s.pc.i, []);
    SplitWiden(c, s'.pm, s.pc.i);
  }

  lemma OpenMergedKeeps(c: Config, s: State, s': State)
    requires c.Valid() && Inv(c, s) && s.pc.OpenMerged? && Next(c, s, s')
    ensures Inv(c, s')
  {
    hide Good, IsSlice, Pow2;
  }

  lemma SetOutKeeps(c: Config, s: State, s': State)
    requires c.Valid() && Inv(c, s) && s.pc.SetOut? && Next(c, s, s')
    ensures Inv(c, s')
  {
    hide Good, IsSlice, Pow2;
  }

  lemma CreateOutKeeps(c: Config, s: State, s': State)
    requires c.Valid() && Inv(c, s) && s.pc.CreateOut? && Next(c, s, s')
    ensures Inv(c, s')
  {
    hide SplitPool, Pow2, Completed, IsSlice;
    SplitWiden(c, s.pm, s.pc.i);
    OutTouch(c, s.pm, s.pc.i, s'.pm[OutKey(c, s.pc.i)]);
  }

  lemma WriteOutKeeps(c: Config, s: State, s': State)
    requires c.Valid() && Inv(c, s) && s.pc.WriteOut? && Next(c, s, s')
    ensures Inv(c, s')
  {
    hide SplitPool, Pow2, Completed, IsSlice;
    CutIsSlice(c, s.pm, s.pc.i, s'.pm[OutKey(c, s.pc.i)]);
    OutTouch(c, s.pm, s.pc.i, s'.pm[OutKey(c, s.pc.i)]);
  }

  /** The right merged chunk is long enough for every output. */
  lemma CutIsSlice(c: Config, pm: Pm, i: nat, v: seq<Record>)
    requires c.Valid() && SplitPool(c, pm, i, i + 1) && i < c.Chunks() && MergedKey(c) in pm
    ensures Cut(c, pm[MergedKey(c)], i, v) <==> IsSlice(pm[MergedKey(c)], c.records, i, v)
  {
    hide Good, Pow2, Only, OutsAre;
    GoodTop(c, pm[MergedKey(c)]);
    SliceInside(i, c.Chunks(), c.records);
  }

  lemma EraseMergedKeeps(c: Config, s: State, s': State)
    requires c.Valid() && Inv(c, s) && s.pc.EraseMerged? && Next(c, s, s')
    ensures Inv(c, s')
  {
    hide Completed, Durable, OddWindow, SplitPool, Pow2;
    SplitDone(c, s.pm);
  }

  lemma SetIdleKeeps(c: Config, s: State, s': State)
    requires c.Valid() && Inv(c, s) && s.pc.SetIdle? && Next(c, s, s')
    ensures Inv(c, s')
  {
    hide Good, IsSlice, Pow2;
  }

  lemma NextKeeps(c: Config, s: State, s': State)
    requires c.Valid() && Inv(c, s) && Next(c, s, s') && !Over(c, s)
    ensures Inv(c, s')
  {
    hide Inv;
    match s.pc
    case Off => OffKeeps(c, s, s');
    case OpenSorted(_) => OpenSortedKeeps(c, s, s');
    case EraseSorted(_) => EraseSortedKeeps(c, s, s');
    case SetOdd(_) => SetOddKeeps(c, s, s');
    case SetChunk(_, _) => SetChunkKeeps(c, s, s');
    case OpenInput(_, _) => OpenInputKeeps(c, s, s');
    case CreateSorted(_) => CreateSortedKeeps(c, s, s');
    case WriteSorted(_) => WriteSortedKeeps(c, s, s');
    case EraseInput(_) => EraseInputKeeps(c, s, s');
    case SetFirstMerge => SetFirstMergeKeeps(c, s, s');
    case EraseSrc(_, _) => EraseSrcKeeps(c, s, s');
    case OpenSrc(_, _) => OpenSourceKeeps(c, s, s');
    case OpenDst(_, _) => OpenDstKeeps(c, s, s');
    case EraseDst(_, _) => EraseDstKeeps(c, s, s');
    case SetSkip(_, _) => SetSkipKeeps(c, s, s');
    case Enter(_, _) => EnterKeeps(c, s, s');
    case Loop(_, _) => LoopKeeps(c, s, s');
    case CreateDst(_, _) => CreateDstKeeps(c, s, s');
    case Open1(_, _) => OpenSourceKeeps(c, s, s');
    case Open2(_, _) => OpenSourceKeeps(c, s, s');
    case WriteDst(_, _) => WriteDstKeeps(c, s, s');
    case Erase1(_, _) => Erase1Keeps(c, s, s');
    case Erase2(_, _) => Erase2Keeps(c, s, s');
    case SetSplit => SetSplitKeeps(c, s, s');
    case EraseOut(_) => EraseOutKeeps(c, s, s');
    case OpenMerged(_) => OpenMergedKeeps(c, s, s');
    case SetOut(_) => SetOutKeeps(c, s, s');
    case CreateOut(_) => CreateOutKeeps(c, s, s');
    case WriteOut(_) => WriteOutKeeps(c, s, s');
    case EraseMerged => EraseMergedKeeps(c, s, s');
    case SetIdle => SetIdleKeeps(c, s, s');
  }

  /** Any step, except a crash inside one of the two windows and a restart of a finished sort. */
  ghost predicate SafeStep(c: Config, s: State, s': State) {
    (Next(c, s, s') && !Over(c, s)) || (Crash(s, s') && !InWindow(c, s))
  }

  ghost predicate IsSafeRun(c: Config, run: seq<State>) {
    && |run| >= 1
    && Init(c, run[0])
    && (forall i :: 0 <= i < |run| - 1 ==> SafeStep(c, run[i], run[i + 1]))
  }

  lemma SafeStepKeeps(c: Config, s: State, s': State)
    requires c.Valid() && Inv(c, s) && SafeStep(c, s, s')
    ensures Inv(c, s')
  {
    hide Durable, InWindow, Next;
    if Next(c, s, s') && !Over(c, s) { NextKeeps(c, s, s'); }
  }

  lemma InitHolds(c: Config, s: State)
    requires c.Valid() && Init(c, s)
    ensures Inv(c, s)
  {
    hide Good, Pow2;
  }

  lemma {:induction false} SafeRunKeeps(c: Config, run: seq<State>, i: nat)
    requires c.Valid() && IsSafeRun(c, run) && i < |run|
    ensures Inv(c, run[i])
  {
    hide Inv, SafeStep, Init;
    if i == 0 {
      InitHolds(c, run[0]);
    } else {
      SafeRunKeeps(c, run, i - 1);
      assert SafeStep(c, run[i - 1], run[i - 1 + 1]);
      SafeStepKeeps(c, run[i - 1], run[i]);
    }
  }

  // ----- custody of the records

  function Keys(t: nat, lo: nat, hi: nat): (ks: seq<Key>) {
    if lo >= hi then [] else Keys(t, lo, hi - 1) + [TierKey(t, hi - 1)]
  }

  /** A pair being merged is still its sources if the first is there, and its destination otherwise. */
  ghost function PairKeys(pm: Pm, p: nat, i: nat): (ks: seq<Key>) {
    if TierKey(p, i) in pm then [TierKey(p, i), TierKey(p, i + 1)] else [TierKey(p + 1, i / 2)]
  }

  /** The chunks that the superblock and the presence of keys make recovery rely on. */
  ghost function NamedKeys(c: Config, pm: Pm, sb: Superblock): (ks: seq<Key>) {
    match sb.stage
    case Idle => if Completed(c, pm) then Keys(c.phases + 2, 0, c.Chunks()) else Keys(0, 0, c.Chunks())
    case SortChunks =>
      var i := sb.index;
      Keys(1, 0, i) + [if TierKey(0, i) in pm then TierKey(0, i) else TierKey(1, i)] + Keys(0, i + 1, c.Chunks())
    case MergeChunks =>
      var i, p := sb.index, sb.phase;
      Keys(p + 1, 0, Merged(c, p, i))
      + (if i >= TierSize(c, p) then [] else PairKeys(pm, p, i))
      + Keys(p, i + 2, TierSize(c, p))
    case SplitResult => [MergedKey(c)]
  }

  ghost function HeldIn(pm: Pm, k: Key): (m: multiset<Record>) {
    if k in pm then multiset(pm[k]) else multiset{}
  }

  /** The records of the named chunks, with multiplicity. */
  ghost function HeldBy(pm: Pm, ks: seq<Key>): (m: multiset<Record>) {
    if ks == [] then multiset{}
    else HeldBy(pm, ks[..|ks| - 1]) + HeldIn(pm, ks[|ks| - 1])
  }

  lemma {:induction false} HeldByConcat(pm: Pm, a: seq<Key>, b: seq<Key>)
    ensures HeldBy(pm, a + b) == HeldBy(pm, a) + HeldBy(pm, b)
  {
    hide HeldBy, HeldIn;
    if b == [] {
      assert a + b == a;
      HeldByNone(pm);
    } else {
      var f, k := b[..|b| - 1], b[|b| - 1];
      HeldByConcat(pm, a, f);
      HeldByAppend(pm, a, f, k);
      assert b == f + [k];
    }
  }

  lemma HeldByAppend(pm: Pm, a: seq<Key>, f: seq<Key>, k: Key)
    requires HeldBy(pm, a + f) == HeldBy(pm, a) + HeldBy(pm, f)
    ensures HeldBy(pm, a + (f + [k])) == HeldBy(pm, a) + HeldBy(pm, f + [k])
  {
    hide HeldBy, HeldIn;
    HeldByLast(pm, f, k);
    HeldByLast(pm, a + f, k);
    assert a + (f + [k]) == a + f + [k];
    Regroup(HeldBy(pm, a), HeldBy(pm, f), HeldIn(pm, k));
  }

  lemma Regroup(a: multiset<Record>, b: multiset<Record>, c: multiset<Record>)
    ensures a + b + c == a + (b + c)
  {}

  lemma HeldByLast(pm: Pm, f: seq<Key>, k: Key)
    ensures HeldBy(pm, f + [k]) == HeldBy(pm, f) + HeldIn(pm, k)
  {
    assert (f + [k])[..|f + [k]| - 1] == f;
  }

  lemma HeldByOne(pm: Pm, k: Key)
    requires k in pm
    ensures HeldBy(pm, [k]) == multiset(pm[k])
  {
    assert [k][..0] == [];
    assert HeldBy(pm, [k]) == HeldBy(pm, []) + multiset(pm[k]);
  }

  lemma HoldsBlock(c: Config, t: nat, i: nat, v: seq<Record>)
    requires Holds(c, t, i, v)
    ensures i * Width(t) + Width(t) <= |c.input|
    ensures multiset(v) == Block(c, i * Width(t), i * Width(t) + Width(t))
  {
    hide Block, Pow2, Sorted;
    if t == 0 {
      BlockOne(c, i);
    } else {
      assert (i + 1) * Pow2(t - 1) == i * Pow2(t - 1) + Pow2(t - 1);
    }
  }

  lemma {:induction false} RangeHeld(c: Config, pm: Pm, t: nat, lo: nat, hi: nat)
    requires AllRight(c, pm, t, lo, hi) && lo <= hi && hi * Width(t) <= |c.input|
    ensures lo * Width(t) <= hi * Width(t)
    ensures HeldBy(pm, Keys(t, lo, hi)) == Block(c, lo * Width(t), hi * Width(t))
  {
    hide Block, Pow2, Width, Good, HeldBy;
    if lo == hi {
      BlockEmpty(c, lo * Width(t));
      HeldByNone(pm);
    } else {
      assert hi * Width(t) == (hi - 1) * Width(t) + Width(t);
      RangeHeld(c, pm, t, lo, hi - 1);
      var k := TierKey(t, hi - 1);
      HoldsBlock(c, t, hi - 1, pm[k]);
      BlockConcat(c, lo * Width(t), (hi - 1) * Width(t), hi * Width(t));
      HeldByConcat(pm, Keys(t, lo, hi - 1), [k]);
      HeldByOne(pm, k);
    }
  }

  lemma BlockEmpty(c: Config, a: nat)
    requires a <= |c.input|
    ensures Block(c, a, a) == multiset{}
  {}

  lemma HeldByNone(pm: Pm)
    ensures HeldBy(pm, []) == multiset{}
  {}

  lemma WholeIsEverything(c: Config)
    requires c.Valid()
    ensures Block(c, 0, c.Chunks()) == Everything(c)
  {
    assert c.input[0..c.Chunks()] == c.input;
  }

  lemma WidthOne()
    ensures Width(0) == 1 && Width(1) == 1
  {}

  lemma SortHeld(c: Config, pm: Pm, i: nat, t: nat)
    requires c.Valid() && i < c.Chunks() && t <= 1
    requires AllRight(c, pm, 1, 0, i) && AllRight(c, pm, t, i, i + 1) && AllRight(c, pm, 0, i + 1, c.Chunks())
    ensures HeldBy(pm, Keys(1, 0, i) + [TierKey(t, i)] + Keys(0, i + 1, c.Chunks())) == Everything(c)
  {
    hide Good, Block, HeldBy, Keys, Pow2, Width, Everything, AllRight, TierKey;
    var n := c.Chunks();
    var a, k, b := Keys(1, 0, i), TierKey(t, i), Keys(0, i + 1, n);
    WidthOne();
    RangeHeld(c, pm, 1, 0, i);
    RangeHeld(c, pm, t, i, i + 1);
    RangeHeld(c, pm, 0, i + 1, n);
    KeysOne(t, i);
    HeldByConcat(pm, a, [k]);
    HeldByConcat(pm, a + [k], b);
    BlockConcat(c, 0, i, i + 1);
    BlockConcat(c, 0, i + 1, n);
    WholeIsEverything(c);
  }

  lemma ChunkIsRight(c: Config, pm: Pm, i: nat)
    requires i < c.Chunks() && (AllRight(c, pm, 0, i, i + 1) || SortPool(c, pm, i + 1))
    ensures AllRight(c, pm, if TierKey(0, i) in pm then 0 else 1, i, i + 1)
  {
    hide Holds, Only, Pow2;
  }

  lemma SortCustody(c: Config, pm: Pm, i: nat)
    requires c.Valid() && i < c.Chunks() && SortPoolExcept(c, pm, i)
    requires AllRight(c, pm, 0, i, i + 1) || SortPool(c, pm, i + 1)
    ensures HeldBy(pm, NamedKeys(c, pm, Superblock(SortChunks, i, 0))) == Everything(c)
  {
    hide Good, Block, HeldBy, Keys, Pow2, Only, Everything, NoneOf;
    var t := if TierKey(0, i) in pm then 0 else 1;
    assert AllRight(c, pm, t, i, i + 1) by { ChunkIsRight(c, pm, i); }
    SortHeld(c, pm, i, t);
  }

  lemma MergeWidths(c: Config, p: nat, i: nat)
    requires c.Valid() && 1 <= p <= c.phases && i % 2 == 0
    ensures TierSize(c, p) * Width(p) == c.Chunks() && TierSize(c, p + 1) * Width(p + 1) == c.Chunks()
    ensures (i / 2) * Width(p + 1) == i * Width(p)
    ensures (i / 2 + 1) * Width(p + 1) == (i + 2) * Width(p)
  {
    PowSplit(c.phases + 1 - p, p - 1);
    PowSplit(c.phases - p, p);
    assert Width(p + 1) == 2 * Width(p);
    var j := i / 2;
    assert i == 2 * j;
    assert (2 * j) * Width(p) == j * (2 * Width(p));
    assert (2 * j + 2) * Width(p) == (j + 1) * (2 * Width(p));
  }

  lemma {:induction false} PowSplit(a: nat, b: nat)
    ensures Pow2(a) * Pow2(b) == Pow2(a + b)
  {
    if a > 0 {
      PowSplit(a - 1, b);
      assert Pow2(a) * Pow2(b) == 2 * (Pow2(a - 1) * Pow2(b));
    }
  }

  ghost predicate BlockIs(c: Config, lo: nat, hi: nat, m: multiset<Record>) {
    lo <= hi <= |c.input| && m == Block(c, lo, hi)
  }

  lemma PairHeld(c: Config, pm: Pm, p: nat, i: nat)
    requires c.Valid() && InPhase(c, p, i)
    requires if TierKey(p, i) in pm then SrcRight(c, pm, p, i) else DstRight(c, pm, p, i)
    ensures BlockIs(c, i * Width(p), (i + 2) * Width(p), HeldBy(pm, PairKeys(pm, p, i)))
  {
    hide Good, Block, HeldBy, Pow2, Width;
    MergeArith(c, p, i);
    MergeWidths(c, p, i);
    MulLe(i + 2, TierSize(c, p), Width(p));
    if TierKey(p, i) in pm {
      RangeHeld(c, pm, p, i, i + 2);
      KeysTwo(p, i);
    } else {
      RangeHeld(c, pm, p + 1, i / 2, i / 2 + 1);
      KeysOne(p + 1, i / 2);
    }
  }

  lemma MulLe(a: nat, b: nat, n: nat)
    requires a <= b
    ensures a * n <= b * n
  {}

  lemma KeysNone(t: nat, lo: nat)
    ensures Keys(t, lo, lo) == []
  {}

  lemma KeysLast(t: nat, lo: nat, hi: nat)
    requires lo <= hi
    ensures Keys(t, lo, hi + 1) == Keys(t, lo, hi) + [TierKey(t, hi)]
  {}

  lemma KeysOne(t: nat, lo: nat)
    ensures Keys(t, lo, lo + 1) == [TierKey(t, lo)]
  {
    assert Keys(t, lo, lo) == [];
  }

  lemma KeysTwo(t: nat, lo: nat)
    ensures Keys(t, lo, lo + 2) == [TierKey(t, lo), TierKey(t, lo + 1)]
  {
    KeysOne(t, lo);
    assert Keys(t, lo, lo + 2) == Keys(t, lo, lo + 1) + [TierKey(t, lo + 1)];
  }

  lemma ThreeBlocks(c: Config, pm: Pm, a: seq<Key>, mid: seq<Key>, b: seq<Key>, lo: nat, hi: nat)
    requires BlockIs(c, 0, lo, HeldBy(pm, a)) && BlockIs(c, lo, hi, HeldBy(pm, mid))
    requires BlockIs(c, hi, |c.input|, HeldBy(pm, b))
    ensures HeldBy(pm, a + mid + b) == Block(c, 0, |c.input|)
  {
    hide Block, HeldBy;
    HeldByConcat(pm, a, mid);
    HeldByConcat(pm, a + mid, b);
    BlockConcat(c, 0, lo, hi);
    BlockConcat(c, 0, hi, |c.input|);
  }

  lemma MergeCustody(c: Config, pm: Pm, sb: Superblock)
    requires c.Valid() && sb.stage == MergeChunks && Durable(c, pm, sb)
    ensures HeldBy(pm, NamedKeys(c, pm, sb)) == Everything(c)
  {
    hide Good, Block, HeldBy, Pow2, Width, AllRight, NoneOf, Only, PairKeys;
    var i, p := sb.index, sb.phase;
    MergeWidths(c, p, i);
    TierHalves(c, p);
    WholeIsEverything(c);
    var a, b := Keys(p + 1, 0, Merged(c, p, i)), Keys(p, i + 2, TierSize(c, p));
    if i >= TierSize(c, p) {
      RangeHeld(c, pm, p + 1, 0, TierSize(c, p + 1));
      assert b == [] && a + [] + b == a;
    } else {
      var lo, hi := i * Width(p), (i + 2) * Width(p);
      MergeArith(c, p, i);
      PairHeld(c, pm, p, i);
      RangeHeld(c, pm, p + 1, 0, i / 2);
      assert BlockIs(c, 0, lo, HeldBy(pm, a));
      RangeHeld(c, pm, p, i + 2, TierSize(c, p));
      assert BlockIs(c, hi, c.Chunks(), HeldBy(pm, b));
      ThreeBlocks(c, pm, a, PairKeys(pm, p, i), b, lo, hi);
    }
  }

  lemma {:induction false} OutsHeld(c: Config, pm: Pm, outs: seq<seq<Record>>)
    requires forall j :: 0 <= j < |outs| ==> OutKey(c, j) in pm && pm[OutKey(c, j)] == outs[j]
    ensures HeldBy(pm, Keys(c.phases + 2, 0, |outs|)) == multiset(Flatten(outs))
  {
    hide HeldBy, Flatten, Keys;
    if outs == [] {
      HeldByNone(pm);
      KeysNone(c.phases + 2, 0);
      FlattenEmpty();
    } else {
      var n := |outs| - 1;
      OutsHeld(c, pm, outs[..n]);
      var k := OutKey(c, n);
      assert k in pm;
      KeysLast(c.phases + 2, 0, n);
      HeldByConcat(pm, Keys(c.phases + 2, 0, n), [k]);
      HeldByOne(pm, k);
      FlattenLast(outs);
    }
  }

  /** The chunks recovery relies on hold each input record exactly once. */
  lemma Custody(c: Config, pm: Pm, sb: Superblock)
    requires c.Valid() && Durable(c, pm, sb)
    ensures HeldBy(pm, NamedKeys(c, pm, sb)) == Everything(c)
  {
    hide HeldBy, Good, Pow2, Block, SortPoolExcept, OutsAre, Only, Everything, Flatten;
    match sb.stage
    case Idle =>
      if Completed(c, pm) {
        FinishedIsSorted(c, pm);
        OutsHeld(c, pm, Outputs(c, pm, c.Chunks()));
      } else {
        assert Width(0) == 1;
        RangeHeld(c, pm, 0, 0, c.Chunks());
        WholeIsEverything(c);
      }
    case SortChunks => SortCustody(c, pm, sb.index);
    case MergeChunks => MergeCustody(c, pm, sb);
    case SplitResult =>
      var m := pm[MergedKey(c)];
      assert Good(c, c.phases, 0, m);
      GoodTop(c, m);
      HeldByOne(pm, MergedKey(c));
  }

  /**
   * As long as no crash falls into a window: outside the windows the chunks the superblock names
   * hold every record exactly once, no exception is raised, and the end state is the sorted output.
   */
  lemma CustodyOverRuns(c: Config, run: seq<State>)
    requires c.Valid() && IsSafeRun(c, run)
    ensures var s := run[|run| - 1];
      && (!InWindow(c, s) ==> HeldBy(s.pm, NamedKeys(c, s.pm, s.sb)) == Everything(c))
      && !s.pc.Threw?
      && (s.pc.Done? ==> s.sb.stage == Idle && SortedOutput(c, s.pm))
  {
    hide *;
    assert |run| >= 1 by { RunNonEmpty(c, run); }
    var s := run[|run| - 1];
    SafeRunKeeps(c, run, |run| - 1);
    InvFacts(c, s);
    if !InWindow(c, s) { Custody(c, s.pm, s.sb); }
    if s.pc.Done? { FinishedIsSorted(c, s.pm); }
  }

  lemma RunNonEmpty(c: Config, run: seq<State>)
    requires IsSafeRun(c, run)
    ensures |run| >= 1
  {}

  lemma InvFacts(c: Config, s: State)
    requires Inv(c, s)
    ensures !s.pc.Threw? && (Durable(c, s.pm, s.sb) || InWindow(c, s))
    ensures s.pc.Done? ==> s.sb.stage == Idle && Finished(c, s.pm)
  {
    hide Durable, InWindow, Finished;
  }

  // ----- every uninterrupted run ends

  /** What the program relies on at its position, whatever the chunks hold. */
  ghost predicate Shape(c: Config, s: State) {
    && (s.sb.stage == SortChunks || s.sb.stage == SplitResult ==> s.sb.index < c.Chunks())
    && match s.pc
       case OpenSorted(i) => i < c.Chunks()
       case EraseSorted(i) => i < c.Chunks()
       case SetOdd(i) => i <= c.Chunks()
       case SetChunk(i, _) => i <= c.Chunks()
       case OpenInput(i, _) => i < c.Chunks()
       case CreateSorted(i) => i < c.Chunks() && TierKey(0, i) in s.pm
       case WriteSorted(i) => i < c.Chunks() && TierKey(0, i) in s.pm
       case EraseInput(i) => i < c.Chunks()
       case EraseSrc(i, p) => p >= 1
       case OpenSrc(i, p) => p >= 1
       case OpenDst(i, p) => p >= 1
       case EraseDst(i, p) => p >= 1
       case Loop(i, p) => 1 <= p <= c.phases
       case CreateDst(i, p) => AtPair(c, i, p)
       case Open1(i, p) => AtPair(c, i, p)
       case Open2(i, p) => AtPair(c, i, p) && TierKey(p, i) in s.pm
       case WriteDst(i, p) => AtPair(c, i, p) && SrcBothPresent(s.pm, p, i)
       case Erase1(i, p) => AtPair(c, i, p)
       case Erase2(i, p) => AtPair(c, i, p)
       case EraseOut(i) => i < c.Chunks()
       case OpenMerged(i) => i < c.Chunks()
       case SetOut(i) => i <= c.Chunks() && MergedKey(c) in s.pm
       case CreateOut(i) => i < c.Chunks() && MergedKey(c) in s.pm
       case WriteOut(i) => i < c.Chunks() && MergedKey(c) in s.pm
       case Done => s.sb.stage == Idle
       case _ => true
  }

  ghost predicate AtPair(c: Config, i: nat, p: nat) { 1 <= p <= c.phases && i < TierSize(c, p) }

  ghost predicate InSort(pc: Pc) {
    || pc.Off? || pc.OpenSorted? || pc.EraseSorted? || pc.SetOdd? || pc.SetChunk? || pc.OpenInput?
    || pc.CreateSorted? || pc.WriteSorted? || pc.EraseInput? || pc.SetFirstMerge?
  }

  ghost predicate InPair(pc: Pc) {
    pc.CreateDst? || pc.Open1? || pc.Open2? || pc.WriteDst? || pc.Erase1? || pc.Erase2?
  }

  ghost predicate InSplit(pc: Pc) {
    || pc.SetSplit? || pc.EraseOut? || pc.OpenMerged? || pc.SetOut? || pc.CreateOut? || pc.WriteOut?
    || pc.EraseMerged? || pc.SetIdle? || pc.Done? || pc.Threw?
  }

  /** Merge phases still to come, phase 0 counting as 1. */
  function Rank(c: Config, p: nat): (r: nat) {
    if p > c.phases then 0 else if p == 0 then c.phases else c.phases + 1 - p
  }

  function Distance(c: Config, pc: Pc): (d: nat) {
    match pc
    case Off => 10 * c.phases + 120
    case OpenSorted(_) => 10 * c.phases + 101
    case EraseSorted(_) => 10 * c.phases + 100
    case SetOdd(_) => 10 * c.phases + 100
    case SetChunk(_, _) => 10 * c.phases + 90
    case OpenInput(_, _) => 10 * c.phases + 90
    case CreateSorted(_) => 10 * c.phases + 90
    case WriteSorted(_) => 10 * c.phases + 90
    case EraseInput(_) => 10 * c.phases + 90
    case SetFirstMerge => 10 * c.phases + 80
    case EraseSrc(_, p) => 10 * Rank(c, p) + 49
    case OpenSrc(_, p) => 10 * Rank(c, p) + 51
    case OpenDst(_, p) => 10 * Rank(c, p) + 50
    case EraseDst(_, p) => 10 * Rank(c, p) + 49
    case SetSkip(_, p) => 10 * Rank(c, p) + 48
    case Enter(_, p) => 10 * Rank(c, p) + 47
    case Loop(_, p) => 10 * Rank(c, p) + 46
    case CreateDst(_, p) => 10 * Rank(c, p) + 46
    case Open1(_, p) => 10 * Rank(c, p) + 46
    case Open2(_, p) => 10 * Rank(c, p) + 46
    case WriteDst(_, p) => 10 * Rank(c, p) + 46
    case Erase1(_, p) => 10 * Rank(c, p) + 46
    case Erase2(_, p) => 10 * Rank(c, p) + 46
    case SetSplit => 30
    case EraseOut(_) => 29
    case OpenMerged(_) => 28
    case SetOut(_) => 27
    case CreateOut(_) => 27
    case WriteOut(_) => 27
    case EraseMerged => 20
    case SetIdle => 19
    case Done => 0
    case Threw => 0
  }

  function Work(c: Config, pc: Pc): (w: int) {
    match pc
    case SetChunk(i, _) => 5 * (c.Chunks() - i)
    case OpenInput(i, _) => 5 * (c.Chunks() - i) - 1
    case CreateSorted(i) => 5 * (c.Chunks() - i) - 2
    case WriteSorted(i) => 5 * (c.Chunks() - i) - 3
    case EraseInput(i) => 5 * (c.Chunks() - i) - 4
    case Loop(i, p) => if i < TierSize(c, p) then 7 * (TierSize(c, p) - i) else 0
    case CreateDst(i, p) => 7 * (TierSize(c, p) - i) - 1
    case Open1(i, p) => 7 * (TierSize(c, p) - i) - 2
    case Open2(i, p) => 7 * (TierSize(c, p) - i) - 3
    case WriteDst(i, p) => 7 * (TierSize(c, p) - i) - 4
    case Erase1(i, p) => 7 * (TierSize(c, p) - i) - 5
    case Erase2(i, p) => 7 * (TierSize(c, p) - i) - 6
    case SetOut(i) => 3 * (c.Chunks() - i)
    case CreateOut(i) => 3 * (c.Chunks() - i) - 1
    case WriteOut(i) => 3 * (c.Chunks() - i) - 2
    case _ => 0
  }

  ghost predicate Closer(c: Config, s': State, s: State) {
    || Distance(c, s'.pc) < Distance(c, s.pc)
    || (Distance(c, s'.pc) == Distance(c, s.pc) && 0 <= Work(c, s'.pc) < Work(c, s.pc))
  }

  /** A step keeps the shape and brings the end closer. */
  ghost predicate Advances(c: Config, s: State, s': State) {
    Shape(c, s') && Closer(c, s', s) && !s'.pc.Off?
  }

  lemma SortAdvances(c: Config, s: State, s': State)
    requires Shape(c, s) && Next(c, s, s') && InSort(s.pc)
    ensures Advances(c, s, s')
  {
    hide Pow2, Sorted;
  }

  lemma PairAdvances(c: Config, s: State, s': State)
    requires Shape(c, s) && Next(c, s, s') && InPair(s.pc)
    ensures Advances(c, s, s')
  {
    hide Pow2, Sorting.Merge, Tiers.TierSize, ChunkSize, TierKey, DstKey;
  }

  lemma MergeAdvances(c: Config, s: State, s': State)
    requires Shape(c, s) && Next(c, s, s') && !InSort(s.pc) && !InPair(s.pc) && !InSplit(s.pc)
    ensures Advances(c, s, s')
  {
    hide Pow2, Tiers.TierSize;
  }

  lemma SplitLoopAdvances(c: Config, s: State, s': State)
    requires Shape(c, s) && Next(c, s, s') && (s.pc.SetOut? || s.pc.CreateOut? || s.pc.WriteOut?)
    ensures Advances(c, s, s')
  {
    hide Pow2, Cut;
  }

  lemma SplitAdvances(c: Config, s: State, s': State)
    requires Shape(c, s) && Next(c, s, s') && InSplit(s.pc) && !s.pc.SetOut? && !s.pc.CreateOut? && !s.pc.WriteOut?
    ensures Advances(c, s, s')
  {
    hide Pow2;
  }

  lemma NextAdvances(c: Config, s: State, s': State)
    requires Shape(c, s) && Next(c, s, s')
    ensures Advances(c, s, s')
  {
    hide *;
    if InSort(s.pc) { SortAdvances(c, s, s'); }
    else if InPair(s.pc) { PairAdvances(c, s, s'); }
    else if s.pc.SetOut? || s.pc.CreateOut? || s.pc.WriteOut? { SplitLoopAdvances(c, s, s'); }
    else if InSplit(s.pc) { SplitAdvances(c, s, s'); }
    else { MergeAdvances(c, s, s'); }
  }

  /** Memory that happens to hold nothing but `x`. */
  ghost function Filled(x: Record, n: nat): (v: seq<Record>)
    ensures |v| == n && forall k :: 0 <= k < n ==> v[k] == x
  {
    seq(n, _ => x)
  }

  /** The pool after a key has been opened, if memory happened to hold nothing but `x`. */
  ghost function Opened(pm: Pm, k: Key, x: Record, n: nat): (pm': Pm) {
    if k in pm then pm else pm[k := Filled(x, n)]
  }

  ghost function Blank(): (x: Record) { RawRecord(seq(RECORD_SIZE, _ => 0)) }

  lemma SortEnabled(c: Config, s: State)
    requires Shape(c, s) && InSort(s.pc)
    ensures exists s' :: Next(c, s, s')
  {
    hide Pow2, Sorted, SortOf, Boot;
    match s.pc
    case Off => assert Next(c, s, s.(pc := Boot(c, s.pm, s.sb)));
    case OpenSorted(i) => assert Next(c, s, s.(pm := Opened(s.pm, TierKey(1, i), Blank(), 0), pc := EraseSorted(i)));
    case EraseSorted(i) => assert Next(c, s, s.(pm := s.pm - {TierKey(1, i)}, pc := SetChunk(i, true)));
    case SetOdd(i) => assert Next(c, s, s.(sb := s.sb.(stage := MergeChunks, index := i), pc := SetChunk(i, true)));
    case SetChunk(i, f) =>
      assert Next(c, s, if i < c.Chunks() then s.(sb := s.sb.(stage := SortChunks, index := i), pc := OpenInput(i, f))
                        else s.(pc := SetFirstMerge));
    case OpenInput(i, f) =>
      assert Next(c, s, if f && TierKey(0, i) !in s.pm then s.(pc := Threw)
                        else s.(pm := Opened(s.pm, TierKey(0, i), Blank(), c.records), pc := CreateSorted(i)));
    case CreateSorted(i) => assert Next(c, s, s.(pm := s.pm[TierKey(1, i) := []], pc := WriteSorted(i)));
    case WriteSorted(i) =>
      SortOfSorts(s.pm[TierKey(0, i)]);
      assert Next(c, s, s.(pm := s.pm[TierKey(1, i) := SortOf(s.pm[TierKey(0, i)])], pc := EraseInput(i)));
    case EraseInput(i) => assert Next(c, s, s.(pm := s.pm - {TierKey(0, i)}, pc := SetChunk(i + 1, false)));
    case SetFirstMerge => assert Next(c, s, s.(sb := Superblock(MergeChunks, 0, 1), pc := Enter(0, 1)));
  }

  lemma MergeEnabled(c: Config, s: State)
    requires Shape(c, s) && !InSort(s.pc) && !InPair(s.pc) && !InSplit(s.pc)
    ensures exists s' :: Next(c, s, s')
  {
    hide Pow2, Tiers.TierSize;
    match s.pc
    case EraseSrc(i, p) => assert Next(c, s, s.(pm := s.pm - {TierKey(p, i + 1)}, pc := SetSkip(i + 2, p)));
    case OpenSrc(i, p) => assert Next(c, s, s.(pm := Opened(s.pm, TierKey(p, i + 1), Blank(), 0), pc := OpenDst(i, p)));
    case OpenDst(i, p) => assert Next(c, s, s.(pm := Opened(s.pm, DstKey(p, i), Blank(), 0), pc := EraseDst(i, p)));
    case EraseDst(i, p) => assert Next(c, s, s.(pm := s.pm - {DstKey(p, i)}, pc := Enter(i, p)));
    case SetSkip(i, p) => assert Next(c, s, s.(sb := Superblock(MergeChunks, i, p), pc := Enter(i, p)));
    case Enter(i, p) =>
      var q := if p == 0 then 1 else p;
      assert Next(c, s, if q > c.phases then s.(pc := SetSplit)
                        else s.(sb := Superblock(MergeChunks, i, q), pc := Loop(i, q)));
    case Loop(i, p) =>
      assert Next(c, s, if i < TierSize(c, p) then s.(sb := Superblock(MergeChunks, i, p), pc := CreateDst(i, p))
                        else s.(pc := Enter(0, p + 1)));
  }

  lemma PairEnabled(c: Config, s: State)
    requires Shape(c, s) && InPair(s.pc)
    ensures exists s' :: Next(c, s, s')
  {
    hide Pow2, Sorting.Merge, TierKey, Tiers.TierSize;
    match s.pc
    case CreateDst(i, p) => assert Next(c, s, s.(pm := s.pm[DstKey(p, i) := []], pc := Open1(i, p)));
    case Open1(i, p) =>
      assert Next(c, s, s.(pm := Opened(s.pm, TierKey(p, i), Blank(), ChunkSize(c, p)), pc := Open2(i, p)));
    case Open2(i, p) =>
      assert Next(c, s, s.(pm := Opened(s.pm, TierKey(p, i + 1), Blank(), ChunkSize(c, p)), pc := WriteDst(i, p)));
    case WriteDst(i, p) =>
      assert Next(c, s, s.(pm := s.pm[DstKey(p, i) := Sorting.Merge(s.pm[TierKey(p, i)], s.pm[TierKey(p, i + 1)])],
                           pc := Erase1(i, p)));
    case Erase1(i, p) => assert Next(c, s, s.(pm := s.pm - {TierKey(p, i)}, pc := Erase2(i, p)));
    case Erase2(i, p) => assert Next(c, s, s.(pm := s.pm - {TierKey(p, i + 1)}, pc := Loop(i + 2, p)));
  }

  lemma SplitEnabled(c: Config, s: State)
    requires Shape(c, s) && InSplit(s.pc) && !s.pc.Done? && !s.pc.Threw?
    ensures exists s' :: Next(c, s, s')
  {
    hide Pow2, Cut;
    match s.pc
    case SetSplit =>
      assert Next(c, s, s.(sb := s.sb.(stage := SplitResult, index := 0), pc := OpenMerged(0)));
    case EraseOut(i) => assert Next(c, s, s.(pm := s.pm - {OutKey(c, i)}, pc := OpenMerged(i)));
    case OpenMerged(i) =>
      var n := ChunkSize(c, c.phases + 1);
      assert Next(c, s, s.(pm := Opened(s.pm, MergedKey(c), Blank(), n), pc := SetOut(i)));
    case SetOut(i) =>
      assert Next(c, s, if i < c.Chunks() then s.(sb := s.sb.(stage := SplitResult, index := i), pc := CreateOut(i))
                        else s.(pc := EraseMerged));
    case CreateOut(i) => assert Next(c, s, s.(pm := s.pm[OutKey(c, i) := []], pc := WriteOut(i)));
    case WriteOut(i) =>
      var v := CutExists(c, s.pm[MergedKey(c)], i);
      assert Next(c, s, s.(pm := s.pm[OutKey(c, i) := v], pc := SetOut(i + 1)));
    case EraseMerged => assert Next(c, s, s.(pm := s.pm - {MergedKey(c)}, pc := SetIdle));
    case SetIdle => assert Next(c, s, s.(sb := s.sb.(stage := Idle), pc := Done));
  }

  lemma CutExists(c: Config, m: seq<Record>, i: nat) returns (v: seq<Record>)
    ensures Cut(c, m, i, v)
  {
    if i * c.records + c.records <= |m| {
      v := m[i * c.records..i * c.records + c.records];
    } else {
      v := Filled(Blank(), c.records);
    }
  }

  lemma Enabled(c: Config, s: State)
    requires Shape(c, s) && !s.pc.Done? && !s.pc.Threw?
    ensures exists s' :: Next(c, s, s')
  {
    hide *;
    if InSort(s.pc) { SortEnabled(c, s); }
    else if InPair(s.pc) { PairEnabled(c, s); }
    else if InSplit(s.pc) { SplitEnabled(c, s); }
    else { MergeEnabled(c, s); }
  }

  lemma DoneIsIdle(c: Config, s: State)
    requires Shape(c, s) && s.pc.Done?
    ensures s.sb.stage == Idle
  {}

  // ----- outside the windows it ends with the sorted output

  /** Every continuation without a crash is finite and ends with the sorted output in the pool. */
  least predicate Inevitable(c: Config, s: State) {
    || (s.pc.Done? && SortedOutput(c, s.pm))
    || ((exists s' :: Next(c, s, s')) && (forall s' :: Next(c, s, s') ==> Inevitable(c, s')))
  }

  lemma TerminalStops(c: Config, s: State, s': State)
    requires s.pc.Threw? || s.pc.Done?
    ensures !Next(c, s, s')
  {}

  lemma InvShape(c: Config, s: State)
    requires c.Valid() && Inv(c, s)
    ensures Shape(c, s)
  {
    hide Good, Pow2, Only, OutsAre, Completed, Holds;
  }

  /** From any state outside the windows, recovery that is left alone completes the sort. */
  lemma {:induction false} UninterruptedFinishes(c: Config, s: State)
    requires c.Valid() && Inv(c, s) && !Over(c, s)
    ensures Inevitable(c, s)
    decreases Distance(c, s.pc), Work(c, s.pc)
  {
    hide Next, Inv, Distance, Work, Durable, Finished, SortedOutput, Completed, InWindow, Shape;
    InvFacts(c, s);
    InvShape(c, s);
    if s.pc.Done? {
      FinishedIsSorted(c, s.pm);
    } else {
      Enabled(c, s);
      forall s' | Next(c, s, s') ensures Inevitable(c, s') {
        NextAdvances(c, s, s');
        NextKeeps(c, s, s');
        UninterruptedFinishes(c, s');
      }
    }
  }
}
