/**
 * Task 2: sort in RAM, back up each phase to persistent memory, recover from the start of a phase.
 * One step is one persistent-memory operation (or a RAM-only computation between two of them);
 * power may fail between any two steps.
 */
module Task2 {
  import opened Records
  import opened KeyNames
  import opened Tiers
  import opened Pool
  import Sorting

  datatype Pc =
    | Off                                             // not running: the next step enters sort_task2
    | Stabilize(tier: nat, next: Pc)                  // inside stabilize_PM
    | Load(tier: nat, next: Pc)                       // load_from_PM
    | EraseOut(i: nat)                                // recovery of the split: drop output i if present
    | SetChunk | SortRam                              // quicksort phase
    | Backup(tier: nat, done: set<Key>)               // backup_to_PM, `done` already copied
    | BackupWrite(tier: nat, done: set<Key>, k: Key)  //   key `k` created, its content not yet written
    | SetMerge(p: nat) | EnterMerge(p: nat) | MergeRam(p: nat)
    | SetSplit | SplitRam(i: nat)
    | SetOut(i: nat) | CreateOut(i: nat) | WriteOut(i: nat)   // backup_final_result
    | SetIdle
    | Done
    | Threw                                           // a General_exception ended the run

  datatype State = State(pm: Pm, sb: Superblock, ram: Pm, pc: Pc)

  /** After init: the input is loaded and the superblock idle, its other fields left as found. */
  ghost predicate Init(c: Config, s: State) {
    && s.pc == Off && s.ram == map[]
    && s.sb.stage == Idle
    && Has(c, s.pm, 0) && Only(c, s.pm, {0})
  }

  /** Where sort_task2 resumes, given the superblock. */
  function Boot(c: Config, sb: Superblock): (pc: Pc) {
    match sb.stage
    case Idle => Load(0, SetChunk)
    case SortChunks => Stabilize(0, Load(0, SetChunk))
    case MergeChunks =>
      var t := if sb.phase <= 1 then 1 else sb.phase;
      Stabilize(t, Load(t, EnterMerge(sb.phase)))
    case SplitResult => EraseOut(sb.index)
  }

  ghost predicate Present(c: Config, m: Pm, t: nat) {
    forall i :: 0 <= i < TierSize(c, t) ==> TierKey(t, i) in m
  }

  function Restrict(c: Config, pm: Pm, t: nat): (ram: Pm) {
    map k | k in TierKeys(c, t) && k in pm :: pm[k]
  }

  /** Each RAM chunk is replaced by some sorted rearrangement of itself, under its new name. */
  ghost predicate Quicksorted(c: Config, ram: Pm, ram': Pm) {
    && ram'.Keys == TierKeys(c, 1)
    && Present(c, ram', 1) && Present(c, ram, 0)
    && (forall i :: 0 <= i < TierSize(c, 1) ==>
          && Sorted(ram'[TierKey(1, i)])
          && (i < TierSize(c, 0) ==> multiset(ram'[TierKey(1, i)]) == multiset(ram[TierKey(0, i)])))
  }

  /** Neighbouring RAM chunks of tier `p` are merged into tier `p + 1`. */
  ghost predicate PairsMerged(c: Config, p: nat, ram: Pm, ram': Pm) {
    && ram'.Keys == TierKeys(c, p + 1)
    && Present(c, ram', p + 1)
    && (forall i :: 0 <= i < TierSize(c, p + 1) ==>
          && TierKey(p, 2 * i) in ram && TierKey(p, 2 * i + 1) in ram
          && ram'[TierKey(p + 1, i)] == Sorting.Merge(ram[TierKey(p, 2 * i)], ram[TierKey(p, 2 * i + 1)]))
  }

  /** The merged RAM chunk is cut into output chunks from `i` on. */
  ghost predicate SplitFrom(c: Config, i: nat, ram: Pm, ram': Pm) {
    && MergedKey(c) in ram
    && (forall k :: k in ram' ==> InTier(c, k, c.phases + 2))
    && (forall j :: i <= j < c.Chunks() ==>
          OutKey(c, j) in ram' && IsSlice(ram[MergedKey(c)], c.records, j, ram'[OutKey(c, j)]))
  }

  /** Created, or opened if it exists, to be overwritten: until then its content is arbitrary. */
  ghost predicate CreatesAny(s: State, s': State, k: Key, next: Pc) {
    k in s'.pm && s' == s.(pm := s.pm[k := s'.pm[k]], pc := next)
  }

  /** The first chunk must exist; a later one that is missing is created, with any content, to be loaded. */
  ghost predicate Loads(c: Config, s: State, s': State, t: nat, next: Pc) {
    if TierKey(t, 0) !in s.pm then s' == s.(pc := Threw)
    else
      && (forall k :: k in s'.pm <==> k in s.pm || k in TierKeys(c, t))
      && (forall k :: k in s.pm ==> s'.pm[k] == s.pm[k])
      && s' == s.(pm := s'.pm, ram := Restrict(c, s'.pm, t), pc := next)
  }

  /** One uninterrupted step. */
  ghost predicate Next(c: Config, s: State, s': State) {
    match s.pc
    case Off => s' == s.(pc := Boot(c, s.sb))
    case Stabilize(t, next) =>
      || (exists k :: k in s.pm && ShouldErase(k, LevelArg(t)) && s' == s.(pm := s.pm - {k}))
      || ((forall k :: k in s.pm ==> !ShouldErase(k, LevelArg(t))) && s' == s.(pc := next))
    case Load(t, next) => Loads(c, s, s', t, next)
    case EraseOut(i) =>
      s' == s.(pm := s.pm - {OutKey(c, i)}, pc := Load(c.phases + 1, SplitRam(i)))
    case SetChunk => s' == s.(sb := s.sb.(stage := SortChunks, index := 0), pc := SortRam)
    case SortRam => Quicksorted(c, s.ram, s'.ram) && s' == s.(ram := s'.ram, pc := Backup(1, {}))
    case Backup(t, done) =>
      || (exists k :: k in s.ram && k !in done && CreatesAny(s, s', k, BackupWrite(t, done, k)))
      || (s.ram.Keys <= done && s' == s.(pc := if t <= c.phases then SetMerge(t) else SetSplit))
    case BackupWrite(t, done, k) =>
      k in s.ram && s' == s.(pm := s.pm[k := s.ram[k]], pc := Backup(t, done + {k}))
    case SetMerge(p) =>
      s' == s.(sb := Superblock(MergeChunks, 0, p),
               pc := Stabilize(p, if p == 1 then EnterMerge(1) else MergeRam(p)))
    case EnterMerge(p) => s' == s.(sb := Superblock(MergeChunks, 0, p), pc := MergeRam(p))
    case MergeRam(p) => PairsMerged(c, p, s.ram, s'.ram) && s' == s.(ram := s'.ram, pc := Backup(p + 1, {}))
    case SetSplit =>
      s' == s.(sb := s.sb.(stage := SplitResult, index := 0), pc := Stabilize(c.phases + 1, SplitRam(0)))
    case SplitRam(i) => SplitFrom(c, i, s.ram, s'.ram) && s' == s.(ram := s'.ram, pc := SetOut(i))
    case SetOut(i) =>
      if i < c.Chunks() then s' == s.(sb := s.sb.(stage := SplitResult, index := i), pc := CreateOut(i))
      else s' == s.(pc := SetIdle)
    case CreateOut(i) => CreatesAny(s, s', OutKey(c, i), WriteOut(i))
    case WriteOut(i) =>
      && OutKey(c, i) in s.ram
      && s' == s.(pm := s.pm[OutKey(c, i) := s.ram[OutKey(c, i)]], pc := SetOut(i + 1))
    case SetIdle => s' == s.(sb := s.sb.(stage := Idle), pc := Stabilize(c.phases + 2, Done))
    case Done => false
    case Threw => false
  }

  /** Power fails, or the process ends: RAM and the program position are gone, the pool stays. */
  ghost predicate Crash(s: State, s': State) {
    s' == s.(ram := map[], pc := Off)
  }

  ghost predicate Step(c: Config, s: State, s': State) {
    Next(c, s, s') || Crash(s, s')
  }

  /** A run from a fresh pool, interrupted any number of times anywhere. */
  ghost predicate IsRun(c: Config, run: seq<State>) {
    && |run| >= 1
    && Init(c, run[0])
    && (forall i :: 0 <= i < |run| - 1 ==> Step(c, run[i], run[i + 1]))
  }

  // ----- the invariant

  /** What the pool holds, read off the superblock alone; true at every crash point. */
  ghost predicate Durable(c: Config, pm: Pm, sb: Superblock) {
    match sb.stage
    case Idle => (Has(c, pm, 0) && Only(c, pm, {0})) || Completed(c, pm)
    case SortChunks => Has(c, pm, 0) && Only(c, pm, {0, 1})
    case MergeChunks =>
      && 1 <= sb.phase <= c.phases
      && Has(c, pm, sb.phase)
      && (Only(c, pm, {sb.phase - 1, sb.phase}) || Only(c, pm, {sb.phase, sb.phase + 1}))
    case SplitResult =>
      && sb.index < c.Chunks()
      && Has(c, pm, c.phases + 1)
      && SplitPool(c, pm, sb.index, sb.index + 1)
  }

  /** The result is there, with at most leftovers of the last two merge levels beside it. */
  ghost predicate Completed(c: Config, pm: Pm) {
    Finished(c, pm) && Only(c, pm, {c.phases, c.phases + 1, c.phases + 2})
  }

  /** Outputs below `n` are right, and none exists at or above `m`. */
  ghost predicate SplitPool(c: Config, pm: Pm, n: nat, m: nat) {
    && Only(c, pm, {c.phases, c.phases + 1, c.phases + 2})
    && MergedKey(c) in pm
    && OutsAre(c, pm, pm[MergedKey(c)], n)
    && (forall j :: m <= j ==> OutKey(c, j) !in pm)
  }

  /** RAM holds exactly tier `t`, rightly. */
  ghost predicate RamIs(c: Config, ram: Pm, t: nat) {
    Has(c, ram, t) && ram.Keys == TierKeys(c, t)
  }

  ghost predicate RamMatches(c: Config, s: State) {
    && MergedKey(c) in s.pm && MergedKey(c) in s.ram
    && s.ram[MergedKey(c)] == s.pm[MergedKey(c)]
  }

  /** RAM holds the output chunks from `i` on, as slices of the merged chunk in the pool. */
  ghost predicate RamOuts(c: Config, s: State, i: nat) {
    && MergedKey(c) in s.pm
    && (forall j :: i <= j < c.Chunks() ==>
          OutKey(c, j) in s.ram && IsSlice(s.pm[MergedKey(c)], c.records, j, s.ram[OutKey(c, j)]))
  }

  ghost predicate AtMerge(s: State, p: nat) {
    s.sb.stage == MergeChunks && s.sb.phase == p
  }

  /** The superblock of the phase during which tier `t` is written. */
  ghost predicate AtBackup(c: Config, s: State, t: nat) {
    && 1 <= t <= c.phases + 1
    && RamIs(c, s.ram, t)
    && Has(c, s.pm, t - 1) && Only(c, s.pm, {t - 1, t})
    && if t == 1 then s.sb.stage == SortChunks else AtMerge(s, t - 1)
  }

  /** `done` is copied; of the rest only `half` (if any) exists in the pool. */
  ghost predicate Copied(s: State, done: set<Key>, half: set<Key>) {
    && done <= s.ram.Keys
    && (forall k :: k in done ==> k in s.pm && s.pm[k] == s.ram[k])
    && (forall k :: k in s.ram && k !in done ==> (k in s.pm <==> k in half))
  }

  ghost predicate StabilizeInv(c: Config, s: State, t: nat, next: Pc) {
    || (t == 0 && s.sb.stage == SortChunks && next == Load(0, SetChunk))
    || (1 <= t <= c.phases && AtMerge(s, t) && AfterMergeStabilize(c, s, t, next))
    || (t == c.phases + 1 && s.sb.stage == SplitResult && s.sb.index == 0 && SplitPool(c, s.pm, 0, 0)
        && next == SplitRam(0) && RamMatches(c, s))
    || (t == c.phases + 2 && s.sb.stage == Idle && Completed(c, s.pm) && next == Done)
  }

  ghost predicate AfterMergeStabilize(c: Config, s: State, t: nat, next: Pc) {
    || next == Load(t, EnterMerge(t))
    || (RamIs(c, s.ram, t) && next == if t == 1 then EnterMerge(1) else MergeRam(t))
  }

  ghost predicate LoadInv(c: Config, s: State, t: nat, next: Pc) {
    || (t == 0 && next == SetChunk && (s.sb.stage == Idle || (s.sb.stage == SortChunks && Only(c, s.pm, {0}))))
    || (1 <= t <= c.phases && next == EnterMerge(t) && AtMerge(s, t) && Only(c, s.pm, {t}))
    || (t == c.phases + 1 && s.sb.stage == SplitResult && next == SplitRam(s.sb.index)
        && SplitPool(c, s.pm, s.sb.index, s.sb.index))
  }

  ghost predicate PcInv(c: Config, s: State) {
    match s.pc
    case Off => true
    case Stabilize(t, next) => StabilizeInv(c, s, t, next)
    case Load(t, next) => LoadInv(c, s, t, next)
    case EraseOut(i) => s.sb.stage == SplitResult && s.sb.index == i
    case SetChunk =>
      && (s.sb.stage == Idle || s.sb.stage == SortChunks)
      && Has(c, s.pm, 0) && Only(c, s.pm, {0}) && RamIs(c, s.ram, 0)
    case SortRam => s.sb.stage == SortChunks && Only(c, s.pm, {0}) && RamIs(c, s.ram, 0)
    case Backup(t, done) => AtBackup(c, s, t) && Copied(s, done, {})
    case BackupWrite(t, done, k) =>
      AtBackup(c, s, t) && Copied(s, done, {k}) && k in s.ram && k !in done && k in s.pm
    case SetMerge(p) => p <= c.phases && AtBackup(c, s, p) && Copied(s, s.ram.Keys, {})
    case EnterMerge(p) => AtMerge(s, p) && Only(c, s.pm, {p}) && RamIs(c, s.ram, p)
    case MergeRam(p) => AtMerge(s, p) && Only(c, s.pm, {p}) && RamIs(c, s.ram, p)
    case SetSplit => AtBackup(c, s, c.phases + 1) && Copied(s, s.ram.Keys, {})
    case SplitRam(i) =>
      && s.sb.stage == SplitResult && s.sb.index == i
      && SplitPool(c, s.pm, i, i) && RamMatches(c, s)
    case SetOut(i) =>
      && s.sb.stage == SplitResult && s.sb.index <= i <= s.sb.index + 1
      && SplitPool(c, s.pm, i, i) && RamOuts(c, s, i)
    case CreateOut(i) =>
      && s.sb.stage == SplitResult && s.sb.index == i
      && SplitPool(c, s.pm, i, i) && RamOuts(c, s, i)
    case WriteOut(i) =>
      && s.sb.stage == SplitResult && s.sb.index == i
      && SplitPool(c, s.pm, i, i + 1) && RamOuts(c, s, i)
    case SetIdle => s.sb.stage == SplitResult && SplitPool(c, s.pm, c.Chunks(), c.Chunks())
    case Done => s.sb.stage == Idle && Completed(c, s.pm) && Only(c, s.pm, {c.phases + 2})
    case Threw => s.sb.stage == Idle && Completed(c, s.pm)
  }

  ghost predicate Inv(c: Config, s: State) {
    Durable(c, s.pm, s.sb) && PcInv(c, s)
  }

  // ----- every step keeps it

  lemma OffKeeps(c: Config, s: State, s': State)
    requires c.Valid() && Inv(c, s) && s.pc.Off? && Next(c, s, s')
    ensures Inv(c, s')
  {
    hide Good, IsSlice, Pow2;
  }

  /** Erasing a key outside the wanted tier. */
  lemma EraseKeeps(c: Config, s: State, k: Key)
    requires c.Valid() && Inv(c, s) && s.pc.Stabilize? && k in s.pm && TierOf(k) != s.pc.tier
    ensures Inv(c, s.(pm := s.pm - {k}))
  {
    hide Good, IsSlice, Pow2, Has, Only, OutsAre, Finished, RamIs, InTier;
    var pm, t := s.pm, s.pc.tier;
    match s.sb.stage
    case Idle =>
      FinishedErase(c, pm, k);
      OnlyErase(c, pm, k, {c.phases, c.phases + 1, c.phases + 2});
    case SortChunks =>
      HasErase(c, pm, k, 0);
      OnlyErase(c, pm, k, {0, 1});
    case MergeChunks =>
      HasErase(c, pm, k, t);
      if Only(c, pm, {t - 1, t}) { OnlyErase(c, pm, k, {t - 1, t}); } else { OnlyErase(c, pm, k, {t, t + 1}); }
    case SplitResult =>
      HasErase(c, pm, k, t);
      OnlyErase(c, pm, k, {c.phases, c.phases + 1, c.phases + 2});
      OutsErase(c, pm, k, pm[MergedKey(c)], 0);
  }

  /** Nothing is left outside the wanted tier. */
  lemma StableKeeps(c: Config, s: State)
    requires c.Valid() && Inv(c, s) && s.pc.Stabilize?
    requires forall k :: k in s.pm ==> TierOf(k) == s.pc.tier
    ensures Inv(c, s.(pc := s.pc.next))
  {
    hide Good, IsSlice, Pow2, Has, OutsAre, Finished, InTier;
    assert Only(c, s.pm, {s.pc.tier});
  }

  lemma StabilizeTiers(c: Config, s: State, k: Key)
    requires c.Valid() && Inv(c, s) && s.pc.Stabilize? && k in s.pm
    ensures InTier(c, k, TierOf(k)) && TierOf(k) <= s.pc.tier + 2
  {
    hide Good, IsSlice, Pow2, Has, OutsAre, Finished, InTier;
  }

  lemma StabilizeKeeps(c: Config, s: State, s': State)
    requires c.Valid() && Inv(c, s) && s.pc.Stabilize? && Next(c, s, s')
    ensures Inv(c, s')
  {
    hide Inv, InTier, ShouldErase, TierOf, Tiers.LevelArg;
    forall k | k in s.pm ensures ShouldErase(k, LevelArg(s.pc.tier)) <==> TierOf(k) != s.pc.tier {
      StabilizeTiers(c, s, k);
      EraseSelectsOtherTiers(c, k, s.pc.tier, TierOf(k));
    }
    if exists k :: k in s.pm && ShouldErase(k, LevelArg(s.pc.tier)) && s' == s.(pm := s.pm - {k}) {
      var k :| k in s.pm && ShouldErase(k, LevelArg(s.pc.tier)) && s' == s.(pm := s.pm - {k});
      EraseKeeps(c, s, k);
    } else {
      StableKeeps(c, s);
    }
  }

  lemma NotPresent(c: Config, pm: Pm)
    requires c.Valid() && Completed(c, pm)
    ensures TierKey(0, 0) !in pm
  {
    hide Finished, Pow2;
  }

  /** A complete tier is loaded as it is. */
  lemma LoadsAll(c: Config, s: State, s': State, t: nat, next: Pc)
    requires Present(c, s.pm, t) && TierSize(c, t) >= 1 && Loads(c, s, s', t, next)
    ensures s' == s.(ram := Restrict(c, s.pm, t), pc := next)
  {
    hide Restrict, Pow2;
    assert TierKey(t, 0) in s.pm;
    assert s'.pm == s.pm;
  }

  lemma SomeChunk(c: Config, t: nat)
    ensures TierSize(c, t) >= 1
  {}

  lemma LoadedRam(c: Config, pm: Pm, t: nat)
    requires Has(c, pm, t)
    ensures Present(c, pm, t) && RamIs(c, Restrict(c, pm, t), t)
    ensures t == c.phases + 1 ==> Restrict(c, pm, t)[MergedKey(c)] == pm[MergedKey(c)]
  {
    hide Holds;
  }

  lemma LoadKeeps(c: Config, s: State, s': State)
    requires c.Valid() && Inv(c, s) && s.pc.Load? && Next(c, s, s')
    ensures Inv(c, s')
  {
    hide Good, IsSlice, Pow2, SplitPool, Holds;
    var t := s.pc.tier;
    if s.sb.stage == Idle && Completed(c, s.pm) {
      NotPresent(c, s.pm);
    } else {
      assert Has(c, s.pm, t);
      LoadedRam(c, s.pm, t);
      SomeChunk(c, t);
      LoadsAll(c, s, s', t, s.pc.next);
    }
  }

  lemma EraseOutKeeps(c: Config, s: State, s': State)
    requires c.Valid() && Inv(c, s) && s.pc.EraseOut? && Next(c, s, s')
    ensures Inv(c, s')
  {
    hide Good, IsSlice, Pow2;
  }

  lemma SetChunkKeeps(c: Config, s: State, s': State)
    requires c.Valid() && Inv(c, s) && s.pc.SetChunk? && Next(c, s, s')
    ensures Inv(c, s')
  {
    hide Good, IsSlice, Pow2;
  }

  lemma SortRamKeeps(c: Config, s: State, s': State)
    requires c.Valid() && Inv(c, s) && s.pc.SortRam? && Next(c, s, s')
    ensures Inv(c, s')
  {
    hide Good, IsSlice, Pow2;
    forall i | 0 <= i < TierSize(c, 1) ensures Holds(c, 1, i, s'.ram[TierKey(1, i)]) {
      assert TierKey(0, i) in s.ram;
      GoodFromSorted(c, i, s'.ram[TierKey(1, i)]);
    }
  }

  lemma BackupKeeps(c: Config, s: State, s': State)
    requires c.Valid() && Inv(c, s) && s.pc.Backup? && Next(c, s, s')
    ensures Inv(c, s')
  {
    hide Good, IsSlice, Pow2, Has, Only, InTier;
    var t := s.pc.tier;
    if s.ram.Keys <= s.pc.done && s' == s.(pc := if t <= c.phases then SetMerge(t) else SetSplit) {
      assert s.pc.done == s.ram.Keys;
    } else {
      var k :| k in s.ram && k !in s.pc.done && CreatesAny(s, s', k, BackupWrite(t, s.pc.done, k));
      InTierIsMember(c, k, t);
      WriteDuringBackup(c, s, k, s'.pm[k]);
    }
  }

  lemma WriteDuringBackup(c: Config, s: State, k: Key, v: seq<Record>)
    requires c.Valid() && Durable(c, s.pm, s.sb) && InTier(c, k, TierOf(k)) && AtBackup(c, s, TierOf(k))
    ensures Durable(c, s.pm[k := v], s.sb) && AtBackup(c, s.(pm := s.pm[k := v]), TierOf(k))
  {
    hide Good, IsSlice, Pow2, Has, Only, InTier;
    var t := TierOf(k);
    HasWrite(c, s.pm, k, v, t - 1);
    OnlyWrite(c, s.pm, k, v, {t - 1, t});
  }

  lemma BackupWriteKeeps(c: Config, s: State, s': State)
    requires c.Valid() && Inv(c, s) && s.pc.BackupWrite? && Next(c, s, s')
    ensures Inv(c, s')
  {
    hide Good, IsSlice, Pow2, Has, Only, InTier;
    var k := s.pc.k;
    InTierIsMember(c, k, s.pc.tier);
    WriteDuringBackup(c, s, k, s.ram[k]);
  }

  lemma SetMergeKeeps(c: Config, s: State, s': State)
    requires c.Valid() && Inv(c, s) && s.pc.SetMerge? && Next(c, s, s')
    ensures Inv(c, s')
  {
    hide Good, IsSlice, Pow2;
  }

  lemma EnterMergeKeeps(c: Config, s: State, s': State)
    requires c.Valid() && Inv(c, s) && s.pc.EnterMerge? && Next(c, s, s')
    ensures Inv(c, s')
  {
    hide Good, IsSlice, Pow2;
  }

  lemma MergeRamKeeps(c: Config, s: State, s': State)
    requires c.Valid() && Inv(c, s) && s.pc.MergeRam? && Next(c, s, s')
    ensures Inv(c, s')
  {
    hide Good, IsSlice, Pow2, Sorting.Merge;
    var p := s.pc.p;
    TierHalves(c, p);
    var q := p + 1;
    forall i | 0 <= i < TierSize(c, q) ensures Holds(c, q, i, s'.ram[TierKey(q, i)]) {
      assert TierKey(p, 2 * i) in s.ram && TierKey(p, 2 * i + 1) in s.ram;
      GoodMerge(c, p - 1, i, s.ram[TierKey(p, 2 * i)], s.ram[TierKey(p, 2 * i + 1)]);
    }
  }

  lemma SetSplitKeeps(c: Config, s: State, s': State)
    requires c.Valid() && Inv(c, s) && s.pc.SetSplit? && Next(c, s, s')
    ensures Inv(c, s')
  {
    hide Good, IsSlice, Pow2;
  }

  lemma SplitRamKeeps(c: Config, s: State, s': State)
    requires c.Valid() && Inv(c, s) && s.pc.SplitRam? && Next(c, s, s')
    ensures Inv(c, s')
  {
    hide Good, IsSlice, Pow2;
  }

  lemma SetOutKeeps(c: Config, s: State, s': State)
    requires c.Valid() && Inv(c, s) && s.pc.SetOut? && Next(c, s, s')
    ensures Inv(c, s')
  {
    hide Good, IsSlice, Pow2, Has, Only;
  }

  lemma WriteDuringSplit(c: Config, s: State, i: nat, v: seq<Record>)
    requires c.Valid() && Durable(c, s.pm, s.sb) && s.sb.stage == SplitResult && s.sb.index == i
    requires RamOuts(c, s, i)
    ensures Durable(c, s.pm[OutKey(c, i) := v], s.sb)
    ensures RamOuts(c, s.(pm := s.pm[OutKey(c, i) := v]), i)
    ensures SplitPool(c, s.pm[OutKey(c, i) := v], i, i + 1)
    ensures s.pm[OutKey(c, i) := v][MergedKey(c)] == s.pm[MergedKey(c)]
  {
    hide Good, IsSlice, Pow2, Has, Only, OutsAre;
    var k := OutKey(c, i);
    HasWrite(c, s.pm, k, v, c.phases + 1);
    OnlyWrite(c, s.pm, k, v, {c.phases, c.phases + 1, c.phases + 2});
    OutsWrite(c, s.pm, k, v, s.pm[MergedKey(c)], i);
  }

  lemma CreateOutKeeps(c: Config, s: State, s': State)
    requires c.Valid() && Inv(c, s) && s.pc.CreateOut? && Next(c, s, s')
    ensures Inv(c, s')
  {
    hide Good, IsSlice, Pow2, Has, Only, OutsAre;
    WriteDuringSplit(c, s, s.pc.i, s'.pm[OutKey(c, s.pc.i)]);
  }

  lemma WriteOutKeeps(c: Config, s: State, s': State)
    requires c.Valid() && Inv(c, s) && s.pc.WriteOut? && Next(c, s, s')
    ensures Inv(c, s')
  {
    hide Good, IsSlice, Pow2, Has, Only;
    WriteDuringSplit(c, s, s.pc.i, s.ram[OutKey(c, s.pc.i)]);
  }

  lemma SetIdleKeeps(c: Config, s: State, s': State)
    requires c.Valid() && Inv(c, s) && s.pc.SetIdle? && Next(c, s, s')
    ensures Inv(c, s')
  {
    hide Good, IsSlice, Pow2;
  }

  lemma CrashKeeps(c: Config, s: State, s': State)
    requires Inv(c, s) && Crash(s, s')
    ensures Inv(c, s')
  {
    hide Good, IsSlice, Pow2;
  }

  lemma StepKeeps(c: Config, s: State, s': State)
    requires c.Valid() && Inv(c, s) && Step(c, s, s')
    ensures Inv(c, s')
  {
    hide Inv, Durable, PcInv;
    if Crash(s, s') {
      CrashKeeps(c, s, s');
    } else {
      match s.pc
      case Off => OffKeeps(c, s, s');
      case Stabilize(_, _) => StabilizeKeeps(c, s, s');
      case Load(_, _) => LoadKeeps(c, s, s');
      case EraseOut(_) => EraseOutKeeps(c, s, s');
      case SetChunk => SetChunkKeeps(c, s, s');
      case SortRam => SortRamKeeps(c, s, s');
      case Backup(_, _) => BackupKeeps(c, s, s');
      case BackupWrite(_, _, _) => BackupWriteKeeps(c, s, s');
      case SetMerge(_) => SetMergeKeeps(c, s, s');
      case EnterMerge(_) => EnterMergeKeeps(c, s, s');
      case MergeRam(_) => MergeRamKeeps(c, s, s');
      case SetSplit => SetSplitKeeps(c, s, s');
      case SplitRam(_) => SplitRamKeeps(c, s, s');
      case SetOut(_) => SetOutKeeps(c, s, s');
      case CreateOut(_) => CreateOutKeeps(c, s, s');
      case WriteOut(_) => WriteOutKeeps(c, s, s');
      case SetIdle => SetIdleKeeps(c, s, s');
    }
  }

  lemma {:induction false} RunKeeps(c: Config, run: seq<State>, i: nat)
    requires c.Valid() && IsRun(c, run) && i < |run|
    ensures Inv(c, run[i])
  {
    hide Good, IsSlice, Pow2, Step;
    if i > 0 {
      RunKeeps(c, run, i - 1);
      assert Step(c, run[i - 1], run[i - 1 + 1]);
      StepKeeps(c, run[i - 1], run[i]);
    }
  }

  /**
   * Whatever the crashes: the superblock says idle only while the input is untouched or when the
   * sorted output is complete; a finished run leaves exactly the output chunks; and an exception is
   * possible only when the sort is started again on a pool that is already finished.
   */
  lemma CrashSafety(c: Config, run: seq<State>)
    requires c.Valid() && IsRun(c, run)
    ensures var s := run[|run| - 1];
      && (s.sb.stage == Idle ==> (Has(c, s.pm, 0) && Only(c, s.pm, {0})) || SortedOutput(c, s.pm))
      && (s.pc.Done? ==> SortedOutput(c, s.pm) && s.pm.Keys == TierKeys(c, c.phases + 2))
      && (s.pc.Threw? ==> SortedOutput(c, s.pm))
  {
    hide Good, IsSlice, Pow2, SortedOutput, OutsAre;
    var s := run[|run| - 1];
    RunKeeps(c, run, |run| - 1);
    if Completed(c, s.pm) {
      FinishedIsSorted(c, s.pm);
    }
    if s.pc.Done? {
      OnlyOutputs(c, s.pm);
    }
  }

  lemma OnlyOutputs(c: Config, pm: Pm)
    requires Finished(c, pm) && Only(c, pm, {c.phases + 2})
    ensures pm.Keys == TierKeys(c, c.phases + 2)
  {
    hide Good, IsSlice, Pow2;
    forall k ensures k in pm <==> k in TierKeys(c, c.phases + 2) {
      InTierIsMember(c, k, c.phases + 2);
      if k in TierKeys(c, c.phases + 2) {
        assert OutKey(c, k.index) == k;
      }
    }
  }

  // ----- how many keys coexist

  lemma {:induction false} TierCard(t: nat, n: nat)
    ensures |set i | 0 <= i < n :: TierKey(t, i)| == n
  {
    if n > 0 {
      TierCard(t, n - 1);
      var a, b := set i | 0 <= i < n :: TierKey(t, i), set i | 0 <= i < n - 1 :: TierKey(t, i);
      assert a == b + {TierKey(t, n - 1)};
      assert TierKey(t, n - 1) !in b;
    }
  }

  lemma TwoTiersCard(c: Config, pm: Pm, t: nat, u: nat)
    requires Only(c, pm, {t, u})
    ensures |pm| <= TierSize(c, t) + TierSize(c, u)
  {
    hide Only;
    assert {t, u} == {t, u, u};
    ThreeTiersCard(c, pm, t, u, u);
  }

  lemma ThreeTiersCard(c: Config, pm: Pm, t: nat, u: nat, v: nat)
    requires Only(c, pm, {t, u, v})
    ensures |pm| <= TierSize(c, t) + TierSize(c, u) + if u == v then 0 else TierSize(c, v)
  {
    hide InTier, TierKey, TierOf, Tiers.TierSize;
    TierCard(t, TierSize(c, t));
    TierCard(u, TierSize(c, u));
    TierCard(v, TierSize(c, v));
    forall k | k in pm.Keys ensures k in TierKeys(c, t) + TierKeys(c, u) + TierKeys(c, v) {
      InTierIsMember(c, k, TierOf(k));
    }
    SubsetCard(pm.Keys, TierKeys(c, t), TierKeys(c, u), if u == v then {} else TierKeys(c, v));
  }

  lemma SubsetCard(s: set<Key>, a: set<Key>, b: set<Key>, d: set<Key>)
    requires s <= a + b + d
    ensures |s| <= |a| + |b| + |d|
  {
    SubsetSmaller(s, a + b + d);
    assert a + b + d == a + (b - a) + (d - a - b);
    SubsetSmaller(b - a, b);
    SubsetSmaller(d - a - b, d);
  }

  lemma {:induction false} SubsetSmaller(s: set<Key>, t: set<Key>)
    requires s <= t
    ensures |s| <= |t|
  {
    if s != {} {
      var x :| x in s;
      SubsetSmaller(s - {x}, t - {x});
    }
  }

  /** With four or more chunks, at most 2N chunk keys and the superblock ever coexist. */
  lemma KeyBound(c: Config, run: seq<State>)
    requires c.Valid() && IsRun(c, run)
    ensures |run[|run| - 1].pm| <= if c.phases >= 2 then 2 * c.Chunks() else 2 * c.Chunks() + 1
  {
    hide Good, IsSlice, Has, OutsAre, InTier, Only, Finished, IsRun, Pow2, PcInv;
    assert |run| >= 1 by { RunNonEmpty(c, run); }
    var s := run[|run| - 1];
    RunKeeps(c, run, |run| - 1);
    var p := c.phases;
    SmallSizes(c);
    match s.sb.stage
    case Idle =>
      if Completed(c, s.pm) {
        ThreeTiersCard(c, s.pm, p, p + 1, p + 2);
      } else {
        var z: set<nat> := {0};
        assert z == {0, 0};
        TwoTiersCard(c, s.pm, 0, 0);
      }
    case SortChunks => TwoTiersCard(c, s.pm, 0, 1);
    case MergeChunks =>
      var q := s.sb.phase;
      if Only(c, s.pm, {q - 1, q}) { TwoTiersCard(c, s.pm, q - 1, q); } else { TwoTiersCard(c, s.pm, q, q + 1); }
      SizesShrink(c, q);
    case SplitResult => ThreeTiersCard(c, s.pm, p, p + 1, p + 2);
  }

  lemma SmallSizes(c: Config)
    requires c.phases >= 1
    ensures TierSize(c, c.phases) == 2 && TierSize(c, c.phases + 1) == 1
    ensures TierSize(c, 0) == TierSize(c, 1) == TierSize(c, c.phases + 2) == c.Chunks()
    ensures c.Chunks() >= 2 && (c.phases >= 2 ==> c.Chunks() >= 4)
  {
    assert Pow2(1) == 2 * Pow2(0) && Pow2(2) == 2 * Pow2(1);
    Pow2Mono(if c.phases >= 2 then 2 else 1, c.phases);
  }

  lemma SizesShrink(c: Config, q: nat)
    requires 1 <= q <= c.phases
    ensures TierSize(c, q - 1) <= c.Chunks() && TierSize(c, q) <= c.Chunks() && TierSize(c, q + 1) <= c.Chunks()
  {
    Pow2Mono(c.phases + 1 - q, c.phases);
    Pow2Mono(c.phases - q, c.phases);
    if q >= 2 { Pow2Mono(c.phases + 2 - q, c.phases); }
  }

  // ----- an uninterrupted run finishes

  /** Every continuation without a crash is finite and ends with the sorted output in the pool. */
  least predicate Inevitable(c: Config, s: State) {
    || (s.pc.Done? && SortedOutput(c, s.pm))
    || ((exists s' :: Next(c, s, s')) && (forall s' :: Next(c, s, s') ==> Inevitable(c, s')))
  }

  /** The sort was asked for again although this pool is already finished. */
  ghost predicate Restarted(c: Config, s: State) {
    s.sb.stage == Idle && Completed(c, s.pm) && (s.pc.Off? || s.pc.Load? || s.pc.Threw?)
  }

  /** Position in the program: later positions have smaller numbers. */
  function Distance(c: Config, pc: Pc): (d: int) {
    match pc
    case Off => 10 * c.phases + 90
    case Stabilize(t, _) =>
      if t == 0 then 10 * c.phases + 80
      else if t <= c.phases then 10 * (c.phases - t) + 37
      else if t == c.phases + 1 then 25 else 20
    case Load(t, _) =>
      if t == 0 then 10 * c.phases + 70 else if t <= c.phases then 10 * (c.phases - t) + 36 else 24
    case EraseOut(_) => 26
    case SetChunk => 10 * c.phases + 60
    case SortRam => 10 * c.phases + 50
    case Backup(t, _) => 10 * (c.phases - t) + 43
    case BackupWrite(t, _, _) => 10 * (c.phases - t) + 43
    case SetMerge(p) => 10 * (c.phases - p) + 38
    case EnterMerge(p) => 10 * (c.phases - p) + 35
    case MergeRam(p) => 10 * (c.phases - p) + 34
    case SetSplit => 27
    case SplitRam(_) => 23
    case SetOut(_) => 22
    case CreateOut(_) => 22
    case WriteOut(_) => 22
    case SetIdle => 21
    case Done => 0
    case Threw => 0
  }

  ghost function Erasable(pm: Pm, t: nat): (ks: set<Key>) {
    set k | k in pm && ShouldErase(k, LevelArg(t))
  }

  /** Work left at the position. */
  ghost function Work(c: Config, s: State): (w: int) {
    match s.pc
    case Stabilize(t, _) => |Erasable(s.pm, t)|
    case Backup(_, done) => 2 * |s.ram.Keys - done| + 1
    case BackupWrite(_, done, _) => 2 * |s.ram.Keys - done|
    case SetOut(i) => 3 * (c.Chunks() - i)
    case CreateOut(i) => 3 * (c.Chunks() - i) - 1
    case WriteOut(i) => 3 * (c.Chunks() - i) - 2
    case _ => 0
  }

  ghost predicate Closer(c: Config, s': State, s: State) {
    || 0 <= Distance(c, s'.pc) < Distance(c, s.pc)
    || (Distance(c, s'.pc) == Distance(c, s.pc) && 0 <= Work(c, s') < Work(c, s))
  }

  lemma NextCloser(c: Config, s: State, s': State)
    requires c.Valid() && Inv(c, s) && Next(c, s, s')
    ensures Closer(c, s', s)
  {
    hide Inv, Next, Closer;
    if s.pc.Stabilize? {
      StabilizeCloser(c, s, s');
    } else if s.pc.Backup? {
      BackupCloser(c, s, s');
    } else if s.pc.BackupWrite? {
      BackupWriteCloser(c, s, s');
    } else {
      OtherCloser(c, s, s');
    }
  }

  lemma StabilizeCloser(c: Config, s: State, s': State)
    requires c.Valid() && Inv(c, s) && Next(c, s, s') && s.pc.Stabilize?
    ensures Closer(c, s', s)
  {
    hide Durable, Only, ShouldErase, Completed, SplitPool, RamIs, RamMatches, Pow2, Erasable;
    var t := s.pc.tier;
    if s' != s.(pc := s.pc.next) {
      var k :| k in s.pm && ShouldErase(k, LevelArg(t)) && s' == s.(pm := s.pm - {k});
      ErasableShrinks(s.pm, t, k);
    }
  }

  lemma ErasableShrinks(pm: Pm, t: nat, k: Key)
    requires k in pm && ShouldErase(k, LevelArg(t))
    ensures |Erasable(pm - {k}, t)| < |Erasable(pm, t)|
  {
    hide ShouldErase;
    assert Erasable(pm - {k}, t) == Erasable(pm, t) - {k};
  }

  lemma BackupCloser(c: Config, s: State, s': State)
    requires c.Valid() && Inv(c, s) && Next(c, s, s') && s.pc.Backup?
    ensures Closer(c, s', s)
  {
    hide Durable, Only, Has, RamIs, Copied, Pow2, Erasable;
  }

  lemma BackupWriteCloser(c: Config, s: State, s': State)
    requires c.Valid() && Inv(c, s) && Next(c, s, s') && s.pc.BackupWrite?
    ensures Closer(c, s', s)
  {
    hide Durable, Only, Has, RamIs, Copied, Pow2, Erasable;
    assert s.ram.Keys - (s.pc.done + {s.pc.k}) == s.ram.Keys - s.pc.done - {s.pc.k};
  }

  /** Positions that only move forward. */
  lemma OtherCloser(c: Config, s: State, s': State)
    requires c.Valid() && Inv(c, s) && Next(c, s, s')
    requires !s.pc.Stabilize? && !s.pc.Backup? && !s.pc.BackupWrite?
    ensures Closer(c, s', s)
  {
    if s.pc.SetOut? || s.pc.CreateOut? || s.pc.WriteOut? {
      hide *;
      OutCloser(c, s, s');
    } else if s.pc.Off? || s.pc.Load? {
      hide *;
      BootCloser(c, s, s');
    } else {
      hide Only, Has, Completed, SplitPool, RamIs, RamMatches, Pow2, Copied,
        Quicksorted, PairsMerged, SplitFrom, Work, StabilizeInv, LoadInv, Restrict, Present;
    }
  }

  lemma BootCloser(c: Config, s: State, s': State)
    requires c.Valid() && Inv(c, s) && Next(c, s, s') && (s.pc.Off? || s.pc.Load?)
    ensures Closer(c, s', s)
  {
    hide Only, Has, Completed, SplitPool, Pow2, Work, Present, Restrict;
  }

  lemma OutCloser(c: Config, s: State, s': State)
    requires c.Valid() && Inv(c, s) && Next(c, s, s')
    requires s.pc.SetOut? || s.pc.CreateOut? || s.pc.WriteOut?
    ensures Closer(c, s', s)
  {
    hide Only, Has, Completed, OutsAre, Pow2, Erasable, RamOuts;
  }

  lemma LoadEnabled(c: Config, s: State, t: nat, next: Pc)
    requires s.pc == Load(t, next)
    ensures exists s' :: Next(c, s, s')
  {
    hide Restrict, TierKeys, Pow2;
    if TierKey(t, 0) in s.pm {
      var pm := map k | k in s.pm.Keys + TierKeys(c, t) :: if k in s.pm then s.pm[k] else [];
      assert Next(c, s, s.(pm := pm, ram := Restrict(c, pm, t), pc := next));
    } else {
      assert Next(c, s, s.(pc := Threw));
    }
  }

  lemma Enabled(c: Config, s: State)
    requires c.Valid() && Inv(c, s) && !s.pc.Done? && !s.pc.Threw?
    ensures exists s' :: Next(c, s, s')
  {
    hide Good, IsSlice, Pow2, OutsAre, ShouldErase, Finished, InTier;
    match s.pc
    case Off => assert Next(c, s, s.(pc := Boot(c, s.sb)));
    case Stabilize(t, next) =>
      if k :| k in s.pm && ShouldErase(k, LevelArg(t)) {
        assert Next(c, s, s.(pm := s.pm - {k}));
      } else {
        assert Next(c, s, s.(pc := next));
      }
    case Load(t, next) => LoadEnabled(c, s, t, next);
    case EraseOut(i) =>
      assert Next(c, s, s.(pm := s.pm - {OutKey(c, i)}, pc := Load(c.phases + 1, SplitRam(i))));
    case SetChunk => assert Next(c, s, s.(sb := s.sb.(stage := SortChunks, index := 0), pc := SortRam));
    case SortRam => SortRamEnabled(c, s);
    case Backup(t, done) =>
      if k :| k in s.ram && k !in done {
        assert Next(c, s, s.(pm := s.pm[k := []], pc := BackupWrite(t, done, k)));
      } else {
        assert Next(c, s, s.(pc := if t <= c.phases then SetMerge(t) else SetSplit));
      }
    case BackupWrite(t, done, k) =>
      assert Next(c, s, s.(pm := s.pm[k := s.ram[k]], pc := Backup(t, done + {k})));
    case SetMerge(p) =>
      assert Next(c, s, s.(sb := Superblock(MergeChunks, 0, p),
                           pc := Stabilize(p, if p == 1 then EnterMerge(1) else MergeRam(p))));
    case EnterMerge(p) => assert Next(c, s, s.(sb := Superblock(MergeChunks, 0, p), pc := MergeRam(p)));
    case MergeRam(p) => MergeRamEnabled(c, s);
    case SetSplit =>
      assert Next(c, s, s.(sb := s.sb.(stage := SplitResult, index := 0), pc := Stabilize(c.phases + 1, SplitRam(0))));
    case SplitRam(i) => SplitRamEnabled(c, s);
    case SetOut(i) =>
      if i < c.Chunks() {
        assert Next(c, s, s.(sb := s.sb.(stage := SplitResult, index := i), pc := CreateOut(i)));
      } else {
        assert Next(c, s, s.(pc := SetIdle));
      }
    case CreateOut(i) => assert Next(c, s, s.(pm := s.pm[OutKey(c, i) := []], pc := WriteOut(i)));
    case WriteOut(i) =>
      assert Next(c, s, s.(pm := s.pm[OutKey(c, i) := s.ram[OutKey(c, i)]], pc := SetOut(i + 1)));
    case SetIdle => assert Next(c, s, s.(sb := s.sb.(stage := Idle), pc := Stabilize(c.phases + 2, Done)));
  }

  ghost function SortAll(c: Config, ram: Pm): (ram': Pm)
    ensures ram'.Keys == TierKeys(c, 1)
  {
    map k | k in TierKeys(c, 1) :: if TierKey(0, k.index) in ram then SortOf(ram[TierKey(0, k.index)]) else []
  }

  lemma SortAllSorts(c: Config, ram: Pm)
    requires Present(c, ram, 0)
    ensures Quicksorted(c, ram, SortAll(c, ram))
  {
    hide Pow2, SortOf, Sorted;
    var ram' := SortAll(c, ram);
    forall i | 0 <= i < TierSize(c, 1) ensures
      && TierKey(1, i) in ram' && TierKey(0, i) in ram
      && Sorted(ram'[TierKey(1, i)]) && multiset(ram'[TierKey(1, i)]) == multiset(ram[TierKey(0, i)])
    {
      assert TierKey(1, i) in TierKeys(c, 1);
      SortOfSorts(ram[TierKey(0, i)]);
    }
  }

  lemma SortRamEnabled(c: Config, s: State)
    requires c.Valid() && Inv(c, s) && s.pc.SortRam?
    ensures exists s' :: Next(c, s, s')
  {
    hide Holds, Quicksorted, SortAll, Pow2;
    SortAllSorts(c, s.ram);
    assert Next(c, s, s.(ram := SortAll(c, s.ram), pc := Backup(1, {})));
  }

  ghost function MergeAll(c: Config, p: nat, ram: Pm): (ram': Pm)
    ensures ram'.Keys == TierKeys(c, p + 1)
  {
    map k | k in TierKeys(c, p + 1) ::
      if TierKey(p, 2 * k.index) in ram && TierKey(p, 2 * k.index + 1) in ram
      then Sorting.Merge(ram[TierKey(p, 2 * k.index)], ram[TierKey(p, 2 * k.index + 1)]) else []
  }

  lemma MergeAllMerges(c: Config, p: nat, ram: Pm)
    requires 1 <= p <= c.phases && Present(c, ram, p)
    ensures PairsMerged(c, p, ram, MergeAll(c, p, ram))
  {
    hide Pow2, Sorting.Merge;
    TierHalves(c, p);
    var ram', q := MergeAll(c, p, ram), p + 1;
    forall i | 0 <= i < TierSize(c, q) ensures
      && TierKey(q, i) in ram' && TierKey(p, 2 * i) in ram && TierKey(p, 2 * i + 1) in ram
      && ram'[TierKey(q, i)] == Sorting.Merge(ram[TierKey(p, 2 * i)], ram[TierKey(p, 2 * i + 1)])
    {
      assert TierKey(q, i) in TierKeys(c, q);
    }
  }

  lemma MergeRamEnabled(c: Config, s: State)
    requires c.Valid() && Inv(c, s) && s.pc.MergeRam?
    ensures exists s' :: Next(c, s, s')
  {
    hide Holds, PairsMerged, MergeAll, Pow2;
    MergeAllMerges(c, s.pc.p, s.ram);
    assert Next(c, s, s.(ram := MergeAll(c, s.pc.p, s.ram), pc := Backup(s.pc.p + 1, {})));
  }

  lemma SplitRamEnabled(c: Config, s: State)
    requires c.Valid() && Inv(c, s) && s.pc.SplitRam?
    ensures exists s' :: Next(c, s, s')
  {
    hide Good, Pow2;
    var i := s.pc.i;
    var m := s.ram[MergedKey(c)];
    assert TierKey(c.phases + 1, 0) in s.pm;
    GoodTop(c, m);
    var ram' := map k | k in TierKeys(c, c.phases + 2) :: CutOut(c, m, k.index);
    forall j | i <= j < c.Chunks() ensures OutKey(c, j) in ram' && IsSlice(m, c.records, j, ram'[OutKey(c, j)]) {
      assert OutKey(c, j) in TierKeys(c, c.phases + 2);
      SliceInside(j, c.Chunks(), c.records);
    }
    assert SplitFrom(c, i, s.ram, ram');
    assert Next(c, s, s.(ram := ram', pc := SetOut(i)));
  }

  ghost function CutOut(c: Config, m: seq<Record>, j: nat): (v: seq<Record>) {
    if j * c.records + c.records <= |m| then m[j * c.records..j * c.records + c.records] else []
  }

  lemma RestartedStays(c: Config, s: State, s': State)
    requires c.Valid() && Inv(c, s) && Next(c, s, s') && !Restarted(c, s)
    ensures !Restarted(c, s')
  {
    hide Pow2, ShouldErase, Only, SplitPool, RamMatches, RamOuts, RamIs, Has, Copied, Completed, Present, Restrict,
      Quicksorted, PairsMerged, SplitFrom;
  }

  /** Left alone, recovery from any crash point finishes the sort. */
  lemma {:induction false} UninterruptedFinishes(c: Config, s: State)
    requires c.Valid() && Inv(c, s) && !Restarted(c, s) && !s.pc.Threw?
    ensures Inevitable(c, s)
    decreases Distance(c, s.pc), Work(c, s)
  {
    hide Next, Distance, Work, Durable, StabilizeInv, LoadInv, AtBackup, SortedOutput, Finished, Only;
    if s.pc.Done? {
      FinishedIsSorted(c, s.pm);
    } else {
      Enabled(c, s);
      forall s' | Next(c, s, s') ensures Inevitable(c, s') {
        NextCloser(c, s, s');
        StepKeeps(c, s, s');
        RestartedStays(c, s, s');
        UninterruptedFinishes(c, s');
      }
    }
  }

  /**
   * Resuming after a crash always ends with the result in place, except when the crash came after the
   * superblock went idle: the input is gone by then, and loading it again throws.
   */
  lemma RecoversIffUnfinished(c: Config, run: seq<State>)
    requires c.Valid() && IsRun(c, run) && run[|run| - 1].pc.Off?
    ensures var s := run[|run| - 1];
      Inevitable(c, s) <==> !(s.sb.stage == Idle && TierKey(0, 0) !in s.pm)
  {
    hide Inv, Inevitable, IsRun, Next, Restarted;
    assert |run| >= 1 by { RunNonEmpty(c, run); }
    var s := run[|run| - 1];
    RunKeeps(c, run, |run| - 1);
    RestartedIff(c, s);
    if Restarted(c, s) { RestartThrows(c, s); } else { UninterruptedFinishes(c, s); }
  }

  lemma RestartedIff(c: Config, s: State)
    requires c.Valid() && Inv(c, s) && s.pc.Off?
    ensures Restarted(c, s) <==> s.sb.stage == Idle && TierKey(0, 0) !in s.pm
  {
    hide Good, IsSlice, Pow2, Finished;
  }

  lemma RestartThrows(c: Config, s: State)
    requires c.Valid() && Inv(c, s) && s.pc.Off? && Restarted(c, s)
    ensures !Inevitable(c, s)
  {
    hide Finished, Pow2, Restrict, Durable, SortedOutput;
    RestartedIff(c, s);
    var s1 := s.(pc := Load(0, SetChunk));
    var s2 := s.(pc := Threw);
    assert Next(c, s, s1);
    NotPresent(c, s.pm);
    assert Next(c, s1, s2);
    assert !Inevitable(c, s2);
    assert !Inevitable(c, s1);
  }

  // ----- the key bound is exact

  /** Before the split: nothing of tier `phases + 2` has been asked for yet. */
  ghost predicate BeforeSplit(c: Config, s: State) {
    && !Restarted(c, s) && s.sb.stage != SplitResult
    && (s.pc.Off? || s.pc.SetChunk? || s.pc.SortRam? || s.pc.Backup? || s.pc.BackupWrite?
        || s.pc.SetMerge? || s.pc.EnterMerge? || s.pc.MergeRam?
        || (s.pc.Stabilize? && s.pc.tier <= c.phases) || s.pc.Load?)
  }

  lemma BeforeSplitNext(c: Config, s: State, s': State)
    requires c.Valid() && Inv(c, s) && BeforeSplit(c, s) && Next(c, s, s') && Inv(c, s')
    ensures BeforeSplit(c, s') || s'.pc.SetSplit?
  {
    hide IsSlice, Pow2, OutsAre, ShouldErase, Finished, InTier, SplitPool, RamMatches, Holds, Has, Only,
      Quicksorted, PairsMerged, SplitFrom, Restarted, RamIs;
    RestartedStays(c, s, s');
    assert s'.pc.Threw? ==> Restarted(c, s') by { ThrewIsRestarted(c, s'); }
  }

  lemma ThrewIsRestarted(c: Config, s: State)
    requires Inv(c, s)
    ensures s.pc.Threw? ==> Restarted(c, s)
  {
    hide Durable, Completed;
  }

  ghost predicate Extends(c: Config, run: seq<State>, longer: seq<State>) {
    IsRun(c, run) && IsRun(c, longer) && run <= longer
  }

  lemma Extend(c: Config, run: seq<State>, s': State)
    requires IsRun(c, run) && Step(c, run[|run| - 1], s')
    ensures Extends(c, run, run + [s'])
  {
    hide Step, Init;
    var longer := run + [s'];
    forall i | 0 <= i < |longer| - 1 ensures Step(c, longer[i], longer[i + 1]) {
      if i < |run| - 1 { assert Step(c, run[i], run[i + 1]); }
    }
  }

  lemma {:induction false} ReachSplit(c: Config, run: seq<State>) returns (longer: seq<State>)
    requires c.Valid() && IsRun(c, run) && BeforeSplit(c, run[|run| - 1])
    ensures Extends(c, run, longer) && longer[|longer| - 1].pc.SetSplit?
    decreases Distance(c, run[|run| - 1].pc), Work(c, run[|run| - 1])
  {
    hide Inv, Next, Distance, Work, IsRun, Restarted;
    assert |run| >= 1 by { RunNonEmpty(c, run); }
    var s := run[|run| - 1];
    RunKeeps(c, run, |run| - 1);
    Enabled(c, s);
    var s' :| Next(c, s, s');
    NextCloser(c, s, s');
    StepKeeps(c, s, s');
    BeforeSplitNext(c, s, s');
    Extend(c, run, s');
    longer := run + [s'];
    if !s'.pc.SetSplit? {
      longer := ReachSplit(c, longer);
    }
  }

  lemma RunNonEmpty(c: Config, run: seq<State>)
    requires IsRun(c, run)
    ensures |run| >= 1
  {}

  /** Recovering the split after a crash that left the level before last in the pool. */
  ghost predicate SplitWithLeftovers(c: Config, s: State) {
    && s.sb.stage == SplitResult && Present(c, s.pm, c.phases)
    && (s.pc.Off? || s.pc.EraseOut? || s.pc.Load? || s.pc.SplitRam? || s.pc.SetOut? || s.pc.CreateOut?
        || s.pc.WriteOut? || s.pc.SetIdle?)
  }

  lemma SplitWithLeftoversNext(c: Config, s: State, s': State)
    requires c.Valid() && Inv(c, s) && SplitWithLeftovers(c, s) && Next(c, s, s')
    ensures s.pc.SetIdle? || SplitWithLeftovers(c, s')
  {
    hide Pow2, Durable, SplitPool, SplitFrom, RamMatches, RamOuts, Completed, Restrict, ShouldErase;
    StepKeeps(c, s, s');
    if !s.pc.SetIdle? {
      LeftoversStay(c, s, s');
    }
  }

  lemma LeftoversStay(c: Config, s: State, s': State)
    requires SplitWithLeftovers(c, s) && Next(c, s, s')
    ensures Present(c, s'.pm, c.phases)
  {
    hide Pow2, SplitFrom, Restrict, ShouldErase;
    forall i | 0 <= i < TierSize(c, c.phases) ensures TierKey(c.phases, i) in s'.pm {
      assert TierKey(c.phases, i) in s.pm;
    }
  }

  lemma {:induction false} ReachIdle(c: Config, run: seq<State>) returns (longer: seq<State>)
    requires c.Valid() && IsRun(c, run) && SplitWithLeftovers(c, run[|run| - 1])
    ensures Extends(c, run, longer)
    ensures var s := longer[|longer| - 1]; s.pc.SetIdle? && SplitWithLeftovers(c, s)
    decreases Distance(c, run[|run| - 1].pc), Work(c, run[|run| - 1])
  {
    hide Inv, Next, Distance, Work, IsRun, Present;
    assert |run| >= 1 by { RunNonEmpty(c, run); }
    var s := run[|run| - 1];
    longer := run;
    if !s.pc.SetIdle? {
      RunKeeps(c, run, |run| - 1);
      assert !s.pc.Done? && !s.pc.Threw?;
      Enabled(c, s);
      var s' :| Next(c, s, s');
      NextCloser(c, s, s');
      SplitWithLeftoversNext(c, s, s');
      Extend(c, run, s');
      longer := ReachIdle(c, run + [s']);
    }
  }

  /** After that crash the final `stabilize_PM` meets N + 3 chunk keys and the superblock. */
  lemma ManyKeys(c: Config, s0: State) returns (run: seq<State>)
    requires c.Valid() && Init(c, s0)
    ensures IsRun(c, run) && run[0] == s0
    ensures var s := run[|run| - 1];
      s.pc == Stabilize(c.phases + 2, Done) && |s.pm| >= c.Chunks() + 3
  {
    hide Next, Inv, Distance, Work, Durable;
    run := [s0];
    assert IsRun(c, run);
    InitBeforeSplit(c, s0);
    run := ReachSplit(c, run);
    var s := run[|run| - 1];
    RunKeeps(c, run, |run| - 1);
    var s1 := s.(sb := s.sb.(stage := SplitResult, index := 0), pc := Stabilize(c.phases + 1, SplitRam(0)));
    SetSplitStep(c, s);
    Extend(c, run, s1);
    run := run + [s1];
    var s2 := s1.(ram := map[], pc := Off);
    Extend(c, run, s2);
    run := run + [s2];
    run := ReachIdle(c, run);
    var s3 := run[|run| - 1];
    RunKeeps(c, run, |run| - 1);
    var s4 := s3.(sb := s3.sb.(stage := Idle), pc := Stabilize(c.phases + 2, Done));
    assert Next(c, s3, s4) by { SetIdleStep(c, s3); }
    Extend(c, run, s4);
    run := run + [s4];
    CountLeftovers(c, s3);
  }

  lemma InitBeforeSplit(c: Config, s: State)
    requires c.Valid() && Init(c, s)
    ensures BeforeSplit(c, s)
  {
    hide Good, IsSlice, Pow2, Finished;
    assert TierKey(0, 0) in s.pm;
  }

  lemma SetSplitStep(c: Config, s: State)
    requires c.Valid() && Inv(c, s) && s.pc.SetSplit?
    ensures Next(c, s, s.(sb := s.sb.(stage := SplitResult, index := 0), pc := Stabilize(c.phases + 1, SplitRam(0))))
    ensures Present(c, s.pm, c.phases)
  {
    hide Good, Pow2;
  }

  lemma SetIdleStep(c: Config, s: State)
    requires s.pc.SetIdle?
    ensures Next(c, s, s.(sb := s.sb.(stage := Idle), pc := Stabilize(c.phases + 2, Done)))
  {}

  lemma CountLeftovers(c: Config, s: State)
    requires c.Valid() && Inv(c, s) && s.pc.SetIdle? && Present(c, s.pm, c.phases)
    ensures |s.pm| >= c.Chunks() + 3
  {
    hide Good, IsSlice, Has, Only;
    var p := c.phases;
    TierCard(p, TierSize(c, p));
    TierCard(p + 2, TierSize(c, p + 2));
    var a, b, d := TierKeys(c, p), {MergedKey(c)}, TierKeys(c, p + 2);
    assert a !! b && b !! d && a !! d;
    forall k | k in d ensures k in s.pm { assert k == OutKey(c, k.index); }
    forall k | k in a ensures k in s.pm { assert k == TierKey(p, k.index); }
    SubsetSmaller(a + b + d, s.pm.Keys);
    assert TierSize(c, p) == 2 by { assert Pow2(1) == 2 * Pow2(0); }
  }

  /** The arrays of 2N + 1 keys are large enough for every run exactly when N >= 4. */
  lemma KeyArraysFit(c: Config, s0: State)
    requires c.Valid() && Init(c, s0)
    ensures (forall run: seq<State> :: IsRun(c, run) ==> |run[|run| - 1].pm| + 1 <= 2 * c.Chunks() + 1)
            <==> c.phases >= 2
  {
    hide Init, Step;
    if c.phases >= 2 {
      forall run: seq<State> | IsRun(c, run) ensures |run[|run| - 1].pm| + 1 <= 2 * c.Chunks() + 1 { KeyBound(c, run); }
    } else {
      var run := ManyKeys(c, s0);
      assert Pow2(1) == 2 * Pow2(0) == 2;
    }
  }
}
