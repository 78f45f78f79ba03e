/**
 * Task 3 without precautions: crashes inside the windows too, resumed however often, and a finished
 * sort started again; and a test before each resumption that tells whether it can succeed.
 */
module Task3Runs {
  import opened Records
  import opened KeyNames
  import opened Tiers
  import opened Pool
  import opened Task3
  import opened Task3Windows
  import Sorting

  // ----- the test

  /**
   * A test of the superblock and three keys before a resumption: outputs or sorted chunks are in the pool
   * where merging should have consumed or not yet made them, or what is to be split or sorted is missing.
   */
  predicate Unrecoverable(c: Config, pm: Pm, sb: Superblock) {
    match sb.stage
    case Idle => TierKey(0, 0) !in pm
    case SortChunks => OutKey(c, 0) in pm
    case MergeChunks => OutKey(c, 0) in pm || (TierKey(1, 0) in pm && (sb.index >= 1 || sb.phase >= 2))
    case SplitResult => MergedKey(c) !in pm || TierKey(1, 0) in pm
  }

  lemma UnrecoverableIff(c: Config, s: State)
    requires c.Valid() && (Durable(c, s.pm, s.sb) || InWindow(c, s))
    ensures Unrecoverable(c, s.pm, s.sb) <==> InWindow(c, s) || Over(c, s.(pc := Off))
  {
    hide Good, IsSlice, Pow2, Finished, Holds;
    match s.sb.stage
    case MergeChunks => MergingSeen(c, s);
    case _ =>
  }

  lemma MergingSeen(c: Config, s: State)
    requires c.Valid() && s.sb.stage == MergeChunks && (Durable(c, s.pm, s.sb) || InWindow(c, s))
    ensures Unrecoverable(c, s.pm, s.sb) <==> OddWindow(c, s.pm, s.sb)
  {
    hide Good, IsSlice, Pow2, Finished, Holds;
  }

  /** Not sure to end well: an exception, or an idle superblock over an output that may be wrong. */
  ghost predicate Fails(c: Config, s: State) {
    || Doomed(c, s)
    || (Ends(c, s) && exists t :: Leads(c, s, t, false) && t.pc.Done? && !SortedOutput(c, t.pm))
  }

  lemma FailsIsNotInevitable(c: Config, s: State)
    requires Fails(c, s)
    ensures !Inevitable(c, s)
  {
    hide Doomed, Ends, Leads, Inevitable, SortedOutput;
    if Doomed(c, s) {
      DoomedIsNotInevitable(c, s);
    } else {
      var t :| Leads(c, s, t, false) && t.pc.Done? && !SortedOutput(c, t.pm);
      MayEndWrong(c, s, t);
    }
  }

  lemma OverFails(c: Config, s: State)
    requires Over(c, s)
    ensures Doomed(c, s)
  {
    hide Finished, Pow2, Doomed;
    OutcomeOfResumption(c, s);
  }

  lemma OddWindowFails(c: Config, s: State)
    requires c.Valid() && s.pc.Off? && OddWindow(c, s.pm, s.sb)
    ensures Fails(c, s)
  {
    hide Ends, Doomed, Leads, OddWindow, Uniform, SortedOutput;
    var x := OtherThan(c.input[0][0]);
    var t := OddWindowMayEnd(c, s, x);
    UniformIsWrong(c, t.pm, x);
  }

  lemma LastWindowFails(c: Config, s: State)
    requires c.Valid() && s.pc.Off? && LastWindow(c, s.pm, s.sb)
    ensures Fails(c, s)
  {
    hide Ends, Doomed, Leads, SortedOutput, Finished, Only, Filled;
    var w, v := WrongEnding(c, s.pm);
    LastWindowMayEnd(c, s, v);
    LastWindowEndsIff(c, s, s.pm);
  }

  /** Some records are not those of the last output. */
  lemma WrongEnding(c: Config, pm: Pm) returns (w: Record, v: seq<Record>)
    requires c.Valid() && Finished(c, pm)
    ensures v == Filled(OtherThan(w), c.records) && !SortedOutput(c, pm[LastKey(c) := v])
  {
    hide SortedOutput, Good, Pow2, Filled;
    var u := Filled(Blank(), c.records);
    ReplacedRightIff(c, pm, u);
    LastOutputSize(c, pm);
    w := pm[LastKey(c)][0];
    v := Filled(OtherThan(w), c.records);
    assert w in multiset(pm[LastKey(c)]) && w !in multiset(v);
    ReplacedRightIff(c, pm, v);
  }

  lemma LastOutputSize(c: Config, pm: Pm)
    requires c.Valid() && Finished(c, pm)
    ensures LastKey(c) in pm && |pm[LastKey(c)]| == c.records
  {
    hide Good, Pow2;
  }

  /**
   * The test decides what becomes of a pool that is in order, in a window, or finished: whoever fails it
   * runs into an exception or may end up idle over a wrong output.
   */
  lemma ResumedIff(c: Config, s: State)
    requires c.Valid() && s.pc.Off? && (Durable(c, s.pm, s.sb) || InWindow(c, s))
    ensures Inevitable(c, s) <==> !Unrecoverable(c, s.pm, s.sb)
    ensures Fails(c, s) <==> Unrecoverable(c, s.pm, s.sb)
    ensures Doomed(c, s) <==> Over(c, s)
  {
    hide Next, Durable, Doomed, Inevitable, OddWindow, LastWindow, Over, Unrecoverable, Ends, Leads, SortedOutput;
    UnrecoverableIff(c, s);
    assert s == s.(pc := Off);
    if Over(c, s) {
      OverFails(c, s);
      FailsIsNotInevitable(c, s);
    } else {
      if InWindow(c, s) {
        if OddWindow(c, s.pm, s.sb) { OddWindowFails(c, s); } else { LastWindowFails(c, s); }
        WindowEnds(c, s);
        EndsIsNotDoomed(c, s);
        FailsIsNotInevitable(c, s);
      } else {
        UninterruptedFinishes(c, s);
        if Doomed(c, s) { DoomedIsNotInevitable(c, s); }
        if Fails(c, s) { FailsIsNotInevitable(c, s); }
      }
    }
  }

  lemma WindowEnds(c: Config, s: State)
    requires c.Valid() && s.pc.Off? && InWindow(c, s)
    ensures Ends(c, s)
  {
    hide Pow2, SortPool, Completed, Ends;
    OutcomeOfResumption(c, s);
  }

  least lemma EndsIsNotDoomed(c: Config, s: State)
    requires Ends(c, s)
    ensures !Doomed(c, s)
  {
    hide Next;
    if s.pc.Done? {
      forall s' ensures !Next(c, s, s') { TerminalStops(c, s, s'); }
    } else {
      var s' :| Next(c, s, s');
      if s.pc.Threw? { TerminalStops(c, s, s'); }
      EndsIsNotDoomed(c, s');
    }
  }

  /**
   * Resuming after a crash completes the sort unless the crash was inside a window or the sort was over.
   * The superblock and the presence of a key tell which.
   */
  lemma RecoversIff(c: Config, run: seq<State>, s': State)
    requires c.Valid() && IsSafeRun(c, run) && Crash(run[|run| - 1], s')
    ensures Inevitable(c, s') <==> !Unrecoverable(c, s'.pm, s'.sb)
    ensures Fails(c, s') <==> Unrecoverable(c, s'.pm, s'.sb)
    ensures Unrecoverable(c, s'.pm, s'.sb) <==> InWindow(c, run[|run| - 1]) || Over(c, s')
    ensures Doomed(c, s') <==> Over(c, s')
  {
    hide Next, Inv, Durable, Doomed, Inevitable, OddWindow, LastWindow, Over, IsSafeRun, Unrecoverable, Fails;
    assert |run| >= 1 by { RunNonEmpty(c, run); }
    var s := run[|run| - 1];
    SafeRunKeeps(c, run, |run| - 1);
    InvFacts(c, s);
    UnrecoverableIff(c, s);
    ResumedIff(c, s');
  }

  // ----- both windows are reached

  lemma Extend(c: Config, run: seq<State>, s': State)
    requires IsSafeRun(c, run) && SafeStep(c, run[|run| - 1], s')
    ensures IsSafeRun(c, run + [s'])
  {
    hide SafeStep, Init;
    var longer := run + [s'];
    forall i | 0 <= i < |longer| - 1 ensures SafeStep(c, longer[i], longer[i + 1]) {
      if i < |run| - 1 { assert SafeStep(c, run[i], run[i + 1]); }
    }
  }

  lemma NextIsSafe(c: Config, s: State, s': State)
    requires Next(c, s, s') && !Over(c, s)
    ensures SafeStep(c, s, s')
  {
    hide Next;
  }

  lemma {:induction false} ReachLastWindow(c: Config, run: seq<State>) returns (longer: seq<State>)
    requires c.Valid() && IsSafeRun(c, run)
    requires !run[|run| - 1].pc.Done? && !Over(c, run[|run| - 1])
    ensures IsSafeRun(c, longer) && run[0] == longer[0]
    ensures var s := longer[|longer| - 1]; LastWindow(c, s.pm, s.sb)
    decreases Distance(c, run[|run| - 1].pc), Work(c, run[|run| - 1].pc)
  {
    hide Next, Inv, Durable, Distance, Work, IsSafeRun, Completed, LastWindow, OddWindow, Shape;
    assert |run| >= 1 by { RunNonEmpty(c, run); }
    var s := run[|run| - 1];
    SafeRunKeeps(c, run, |run| - 1);
    InvFacts(c, s);
    InvShape(c, s);
    if s.pc.SetIdle? {
      longer := run;
      AtSetIdle(c, s);
    } else {
      Enabled(c, s);
      var s' :| Next(c, s, s');
      NextAdvances(c, s, s');
      OnlySetIdleEnds(c, s, s');
      Extend(c, run, s');
      longer := ReachLastWindow(c, run + [s']);
    }
  }

  lemma AtSetIdle(c: Config, s: State)
    requires Inv(c, s) && s.pc.SetIdle?
    ensures LastWindow(c, s.pm, s.sb)
  {
    hide Durable;
  }

  lemma OnlySetIdleEnds(c: Config, s: State, s': State)
    requires Next(c, s, s') && !s.pc.SetIdle?
    ensures !s'.pc.Done?
  {
    hide Next;
    if InSplit(s.pc) {
      SplitEndsAtIdle(c, s, s');
    } else if InSort(s.pc) {
      SortDoesNotEnd(c, s, s');
    } else {
      MergeDoesNotEnd(c, s, s');
    }
  }

  lemma SplitEndsAtIdle(c: Config, s: State, s': State)
    requires Next(c, s, s') && InSplit(s.pc) && !s.pc.SetIdle?
    ensures !s'.pc.Done?
  {
    hide Pow2, Cut, TierKey, ChunkSize;
  }

  lemma SortDoesNotEnd(c: Config, s: State, s': State)
    requires Next(c, s, s') && InSort(s.pc)
    ensures !s'.pc.Done?
  {
    hide Pow2, Sorted, TierKey;
  }

  lemma MergeDoesNotEnd(c: Config, s: State, s': State)
    requires Next(c, s, s') && !InSort(s.pc) && !InSplit(s.pc)
    ensures !s'.pc.Done?
  {
    hide Pow2, Sorting.Merge, Tiers.TierSize, TierKey, ChunkSize;
  }

  /** A plain run reaches the second window. */
  lemma LastWindowRun(c: Config, s0: State) returns (run: seq<State>)
    requires c.Valid() && Init(c, s0)
    ensures IsSafeRun(c, run) && run[0] == s0
    ensures var s := run[|run| - 1].(pc := Off); LastWindow(c, s.pm, s.sb) && Fails(c, s) && Ends(c, s)
  {
    hide Next, Inv, Durable, Completed, Fails, Has, Only, Ends;
    assert IsSafeRun(c, [s0]);
    InitNotOver(c, s0);
    run := ReachLastWindow(c, [s0]);
    LastWindowFails(c, run[|run| - 1].(pc := Off));
    WindowEnds(c, run[|run| - 1].(pc := Off));
  }

  lemma InitNotOver(c: Config, s: State)
    requires c.Valid() && Init(c, s)
    ensures !Completed(c, s.pm)
  {
    hide Good, Finished, Pow2;
    assert TierKey(0, 0) in s.pm;
  }

  /** A first crash right after the first chunk is sorted, and recovery passes through the first window. */
  lemma OddWindowRun(c: Config, s0: State) returns (run: seq<State>)
    requires c.Valid() && Init(c, s0)
    ensures IsSafeRun(c, run) && run[0] == s0
    ensures var s := run[|run| - 1]; OddWindow(c, s.pm, s.sb) && s.sb.phase == s0.sb.phase
  {
    hide Inv, Durable, Completed, Has, Only, SortOf, InWindow, SafeStep, Init, Holds, Pow2, IsSafeRun;
    InitNotOver(c, s0);
    run := SortFirstChunk(c, s0);
    assert |run| >= 1 by { RunNonEmpty(c, run); }
    var s := run[|run| - 1];
    SafeRunKeeps(c, run, |run| - 1);
    var s1 := s.(pc := Off);
    CrashAfterFirst(c, s);
    Extend(c, run, s1);
    run := run + [s1];
    var s2 := s1.(pc := SetOdd(1));
    NextIsSafe(c, s1, s2);
    Extend(c, run, s2);
    run := run + [s2];
    var s3 := s2.(sb := s2.sb.(stage := MergeChunks, index := 1), pc := SetChunk(1, true));
    NextIsSafe(c, s2, s3);
    Extend(c, run, s3);
    run := run + [s3];
    SafeRunKeeps(c, run, |run| - 1);
    AtOddSetChunk(c, s3);
  }

  lemma CrashAfterFirst(c: Config, s: State)
    requires s.sb.stage == SortChunks
    ensures SafeStep(c, s, s.(pc := Off))
  {
    hide Next;
  }

  lemma AtOddSetChunk(c: Config, s: State)
    requires Inv(c, s) && s.pc == SetChunk(1, true) && s.sb.stage == MergeChunks && s.sb.index == 1
    ensures OddWindow(c, s.pm, s.sb)
  {
    hide Durable, SortPool;
  }

  lemma SortFirstChunk(c: Config, s0: State) returns (run: seq<State>)
    requires c.Valid() && Init(c, s0)
    ensures IsSafeRun(c, run) && run[0] == s0
    ensures var s := run[|run| - 1];
      s.pc == SetChunk(1, false) && AtSort(s, 0) && s.sb.phase == s0.sb.phase && TierKey(0, 0) !in s.pm
  {
    hide Completed, InWindow, SortOf, Sorted, Pow2, IsSafeRun, SafeStep, Only, Holds;
    InitNotOver(c, s0);
    assert IsSafeRun(c, [s0]) by { SingleRun(c, s0); }
    var raw := TierKey(0, 0);
    assert raw in s0.pm;
    var v := SortOf(s0.pm[raw]);
    SortOfSorts(s0.pm[raw]);
    var s1 := s0.(pc := SetChunk(0, true));
    var s2 := s1.(sb := s1.sb.(stage := SortChunks, index := 0), pc := OpenInput(0, true));
    var s3 := s2.(pc := CreateSorted(0));
    var s4 := s3.(pm := s3.pm[TierKey(1, 0) := []], pc := WriteSorted(0));
    var s5 := s4.(pm := s4.pm[TierKey(1, 0) := v], pc := EraseInput(0));
    var s6 := s5.(pm := s5.pm - {raw}, pc := SetChunk(1, false));
    run := [s0];
    run := ExtendNext(c, run, s1);
    run := ExtendNext(c, run, s2);
    run := ExtendNext(c, run, s3);
    run := ExtendNext(c, run, s4);
    run := ExtendNext(c, run, s5);
    run := ExtendNext(c, run, s6);
  }

  lemma ExtendNext(c: Config, run: seq<State>, s': State) returns (longer: seq<State>)
    requires IsSafeRun(c, run) && Next(c, run[|run| - 1], s') && !Over(c, run[|run| - 1])
    ensures IsSafeRun(c, longer) && longer == run + [s'] && longer[|longer| - 1] == s' && longer[0] == run[0]
  {
    hide Next, Over;
    NextIsSafe(c, run[|run| - 1], s');
    Extend(c, run, s');
    longer := run + [s'];
  }

  lemma SingleRun(c: Config, s: State)
    requires Init(c, s)
    ensures IsSafeRun(c, [s])
  {}

  /**
   * Two power failures, the second in the first window, and a resumption that is left alone: from any
   * fresh pool a run may end with an idle superblock and any one record all over the output.
   */
  lemma SilentlyWrong(c: Config, s0: State, x: Record) returns (run: seq<State>, t: State)
    requires c.Valid() && Init(c, s0)
    ensures IsSafeRun(c, run) && run[0] == s0
    ensures Leads(c, run[|run| - 1].(pc := Off), t, false)
    ensures t.pc.Done? && t.sb.stage == Idle && Uniform(c, t.pm, x)
  {
    hide *;
    run := OddWindowRun(c, s0);
    assert |run| >= 1 by { RunNonEmpty(c, run); }
    t := OddWindowMayEnd(c, run[|run| - 1].(pc := Off), x);
  }

  // ----- any run

  /** Any run from a fresh pool. */
  ghost predicate IsRun(c: Config, run: seq<State>) {
    && |run| >= 1
    && Init(c, run[0])
    && (forall i :: 0 <= i < |run| - 1 ==> Step(c, run[i], run[i + 1]))
  }

  lemma StartShape(c: Config, s: State)
    requires Init(c, s)
    ensures Shape(c, s)
  {}

  lemma CrashShape(c: Config, s: State, s': State)
    requires Shape(c, s) && Crash(s, s')
    ensures Shape(c, s')
  {}

  lemma {:induction false} RunShape(c: Config, run: seq<State>, i: nat)
    requires IsRun(c, run) && i < |run|
    ensures Shape(c, run[i])
  {
    hide Init, Shape, Next, Crash;
    if i == 0 {
      StartShape(c, run[0]);
    } else {
      RunShape(c, run, i - 1);
      assert Step(c, run[i - 1], run[i - 1 + 1]);
      if Next(c, run[i - 1], run[i]) { NextAdvances(c, run[i - 1], run[i]); }
      else { CrashShape(c, run[i - 1], run[i]); }
    }
  }

  /**
   * Wherever power has failed, however often, and whatever has been resumed: the next resumption, left
   * alone, comes to an end, and one or two input keys decide whether in an exception or idle.
   */
  lemma OutcomeOverRuns(c: Config, run: seq<State>)
    requires IsRun(c, run) && run[|run| - 1].pc.Off?
    ensures var s := run[|run| - 1]; if Starved(c, s.pm, s.sb) then Doomed(c, s) else Ends(c, s)
  {
    hide *;
    assert |run| >= 1 by { AnyRunNonEmpty(c, run); }
    RunShape(c, run, |run| - 1);
    OutcomeOfResumption(c, run[|run| - 1]);
  }

  /** Resuming although what is to be sorted, or to be split, is not there. */
  ghost predicate Reckless(c: Config, s: State, s': State) {
    && s.pc.Off? && !s'.pc.Off?
    && (if s.sb.stage == SplitResult then MergedKey(c) !in s.pm else s.sb.stage == Idle && TierKey(0, 0) !in s.pm)
  }

  ghost predicate NeverReckless(c: Config, run: seq<State>) {
    forall i :: 0 <= i < |run| - 1 ==> !Reckless(c, run[i], run[i + 1])
  }

  // ----- what is left of a run that went wrong

  /** Outputs of an earlier end are there (`r`), or merging has passed over the first sorted chunk. */
  ghost predicate Astray(c: Config, pm: Pm, i: nat, p: nat, r: bool) {
    || (r && OutKey(c, 0) in pm)
    || (TierKey(1, 0) in pm && (i >= 1 || p >= 2))
  }

  ghost predicate BadSuperblock(c: Config, pm: Pm, sb: Superblock, r: bool) {
    match sb.stage
    case Idle => r ==> OutKey(c, 0) in pm
    case SortChunks => r && OutKey(c, 0) in pm
    case MergeChunks => Astray(c, pm, sb.index, sb.phase, r)
    case SplitResult =>
      if r then sb.index >= 1 ==> OutKey(c, 0) in pm else MergedKey(c) !in pm || TierKey(1, 0) in pm
  }

  ghost predicate BadPair(c: Config, s: State, i: nat, p: nat) { AtMerge(s, i, p) && AtPair(c, i, p) }

  ghost predicate BadSplit(c: Config, s: State, r: bool) {
    s.sb.stage == SplitResult && (r || TierKey(1, 0) in s.pm)
  }

  ghost predicate BadPc(c: Config, s: State, r: bool) {
    match s.pc
    case Off => true
    case OpenSorted(i) => AtSort(s, i) && i >= 1
    case EraseSorted(i) => AtSort(s, i) && i >= 1
    case SetOdd(i) => s.sb.stage == SortChunks && i >= 1
    case SetChunk(i, first) => r && OutKey(c, 0) in s.pm && s.sb.stage != SplitResult && (i == 0 ==> first)
    case OpenInput(i, first) => AtSort(s, i) && (i == 0 ==> first)
    case CreateSorted(i) => AtSort(s, i)
    case WriteSorted(i) => AtSort(s, i)
    case EraseInput(i) => AtSort(s, i)
    case SetFirstMerge => r && OutKey(c, 0) in s.pm && s.sb.stage != SplitResult
    case EraseSrc(i, p) => AtMerge(s, i, p) && p >= 1
    case OpenSrc(i, p) => AtMerge(s, i, p) && p >= 1
    case OpenDst(i, p) => AtMerge(s, i, p) && p >= 1
    case EraseDst(i, p) => AtMerge(s, i, p) && p >= 1
    case SetSkip(i, p) => s.sb.stage == MergeChunks && i >= 1
    case Enter(i, p) => s.sb.stage == MergeChunks && Astray(c, s.pm, i, p, r)
    case Loop(i, p) => s.sb.stage == MergeChunks && 1 <= p <= c.phases && Astray(c, s.pm, i, p, r)
    case CreateDst(i, p) => BadPair(c, s, i, p)
    case Open1(i, p) => BadPair(c, s, i, p)
    case Open2(i, p) => BadPair(c, s, i, p)
    case WriteDst(i, p) => BadPair(c, s, i, p)
    case Erase1(i, p) => BadPair(c, s, i, p)
    case Erase2(i, p) => BadPair(c, s, i, p)
    case SetSplit => s.sb.stage == MergeChunks
    case EraseOut(i) => AtSplit(s, i) && BadSplit(c, s, r)
    case OpenMerged(i) => AtSplit(s, i) && BadSplit(c, s, r)
    case SetOut(i) => BadSplit(c, s, r) && (r && i >= 1 ==> OutKey(c, 0) in s.pm)
    case CreateOut(i) => AtSplit(s, i) && BadSplit(c, s, r)
    case WriteOut(i) => AtSplit(s, i) && BadSplit(c, s, r)
    case EraseMerged => BadSplit(c, s, r) && (r ==> OutKey(c, 0) in s.pm)
    case SetIdle => BadSplit(c, s, r) && (r ==> OutKey(c, 0) in s.pm)
    case Done => s.sb.stage == Idle
    case Threw => true
  }

  /** The phase in the superblock is one of this sort. */
  ghost predicate Phased(c: Config, s: State) {
    && s.sb.phase <= c.phases
    && match s.pc
       case EraseSrc(_, p) => p <= c.phases
       case OpenSrc(_, p) => p <= c.phases
       case OpenDst(_, p) => p <= c.phases
       case EraseDst(_, p) => p <= c.phases
       case SetSkip(_, p) => p <= c.phases
       case Loop(_, p) => p <= c.phases
       case _ => InPair(s.pc) ==> s.pc.p <= c.phases
  }

  /**
   * The first input chunk is gone and the superblock no longer tells where the records are.  `r`: there
   * may have been reckless resumptions.
   */
  ghost predicate Bad(c: Config, s: State, r: bool) {
    TierKey(0, 0) !in s.pm && BadSuperblock(c, s.pm, s.sb, r) && BadPc(c, s, r)
  }

  lemma BootStaysBad(c: Config, s: State, s': State, r: bool)
    requires c.Valid() && Bad(c, s, r) && s.pc.Off? && Next(c, s, s') && (r || !Reckless(c, s, s'))
    ensures Bad(c, s', r)
  {
    hide Pow2;
  }

  lemma SortStaysBad(c: Config, s: State, s': State, r: bool)
    requires c.Valid() && Bad(c, s, r) && InSort(s.pc) && !s.pc.Off? && Next(c, s, s')
    ensures Bad(c, s', r)
  {
    hide Pow2, Sorted;
  }

  lemma PairStaysBad(c: Config, s: State, s': State, r: bool)
    requires c.Valid() && Bad(c, s, r) && InPair(s.pc) && Next(c, s, s')
    ensures Bad(c, s', r)
  {
    hide Sorting.Merge, Pow2, Tiers.TierSize, ChunkSize;
  }

  lemma MergeStaysBad(c: Config, s: State, s': State, r: bool)
    requires c.Valid() && Bad(c, s, r) && !InSort(s.pc) && !InPair(s.pc) && !InSplit(s.pc) && Next(c, s, s')
    requires r ==> Phased(c, s)
    ensures Bad(c, s', r)
  {
    hide Pow2, Tiers.TierSize;
  }

  lemma SplitStaysBad(c: Config, s: State, s': State, r: bool)
    requires c.Valid() && Bad(c, s, r) && InSplit(s.pc) && Next(c, s, s')
    ensures Bad(c, s', r)
  {
    hide Next, Bad;
    if s.pc.Done? || s.pc.Threw? { TerminalStops(c, s, s'); }
    if s.pc.CreateOut? || s.pc.WriteOut? { OutputStaysBad(c, s, s', r); }
    else if s.pc.EraseOut? || s.pc.OpenMerged? || s.pc.EraseMerged? { OtherKeyStaysBad(c, s, s', r); }
    else { SetterStaysBad(c, s, s', r); }
  }

  lemma OutputStaysBad(c: Config, s: State, s': State, r: bool)
    requires c.Valid() && Bad(c, s, r) && (s.pc.CreateOut? || s.pc.WriteOut?) && Next(c, s, s')
    ensures Bad(c, s', r)
  {
    hide Pow2, Cut, ChunkSize;
  }

  lemma OtherKeyStaysBad(c: Config, s: State, s': State, r: bool)
    requires c.Valid() && Bad(c, s, r) && (s.pc.EraseOut? || s.pc.OpenMerged? || s.pc.EraseMerged?) && Next(c, s, s')
    ensures Bad(c, s', r)
  {
    hide Pow2, ChunkSize;
  }

  lemma SetterStaysBad(c: Config, s: State, s': State, r: bool)
    requires c.Valid() && Bad(c, s, r) && (s.pc.SetSplit? || s.pc.SetOut? || s.pc.SetIdle?) && Next(c, s, s')
    ensures Bad(c, s', r)
  {
    hide Pow2, TierKey;
  }

  lemma StaysBad(c: Config, s: State, s': State, r: bool)
    requires c.Valid() && Bad(c, s, r) && Step(c, s, s') && (r || !Reckless(c, s, s')) && (r ==> Phased(c, s))
    ensures Bad(c, s', r)
  {
    if Next(c, s, s') {
      hide *;
      if s.pc.Off? { BootStaysBad(c, s, s', r); }
      else if InSort(s.pc) { SortStaysBad(c, s, s', r); }
      else if InSplit(s.pc) { SplitStaysBad(c, s, s', r); }
      else if InPair(s.pc) { PairStaysBad(c, s, s', r); }
      else { MergeStaysBad(c, s, s', r); }
    }
  }

  lemma StaysPhased(c: Config, s: State, s': State)
    requires c.Valid() && Phased(c, s) && Step(c, s, s')
    ensures Phased(c, s')
  {
    if s.pc.Off? || (!InSort(s.pc) && !InSplit(s.pc)) { MergeStaysPhased(c, s, s'); }
    else { OtherStaysPhased(c, s, s'); }
  }

  lemma MergeStaysPhased(c: Config, s: State, s': State)
    requires Phased(c, s) && Step(c, s, s') && (s.pc.Off? || (!InSort(s.pc) && !InSplit(s.pc)))
    ensures Phased(c, s')
  {
    hide Pow2, Sorting.Merge, Tiers.TierSize, TierKey, DstKey, ChunkSize;
  }

  lemma OtherStaysPhased(c: Config, s: State, s': State)
    requires c.Valid() && Phased(c, s) && Step(c, s, s') && !s.pc.Off? && (InSort(s.pc) || InSplit(s.pc))
    ensures Phased(c, s')
  {
    hide Pow2, Cut, Sorted, TierKey, ChunkSize;
  }

  lemma WindowGoesBad(c: Config, s: State, r: bool)
    requires c.Valid() && s.pc.Off? && InWindow(c, s)
    ensures Bad(c, s, r)
  {
    hide Good, IsSlice, Pow2, Holds;
  }

  lemma AgainGoesBad(c: Config, s: State, s': State)
    requires c.Valid() && Over(c, s) && Next(c, s, s')
    ensures Reckless(c, s, s') && Bad(c, s', true)
  {
    hide Good, IsSlice, Pow2;
  }

  // ----- what the test is worth then

  ghost predicate InOrder(c: Config, s: State, r: bool) {
    (Inv(c, s) || Bad(c, s, r)) && (r ==> Phased(c, s))
  }

  lemma StepInOrder(c: Config, s: State, s': State, r: bool)
    requires c.Valid() && InOrder(c, s, r) && Step(c, s, s') && (r || !Reckless(c, s, s'))
    ensures InOrder(c, s', r)
  {
    hide Inv, Bad, Over, InWindow, Next, Phased, Reckless;
    if r { StaysPhased(c, s, s'); }
    if Bad(c, s, r) {
      StaysBad(c, s, s', r);
    } else if Next(c, s, s') {
      if Over(c, s) { AgainGoesBad(c, s, s'); } else { NextKeeps(c, s, s'); }
    } else if InWindow(c, s) {
      WindowStays(c, s, s');
      WindowGoesBad(c, s', r);
    } else {
      SafeStepKeeps(c, s, s');
    }
  }

  lemma WindowStays(c: Config, s: State, s': State)
    requires Crash(s, s') && InWindow(c, s)
    ensures InWindow(c, s') && s'.pc.Off?
  {
    hide OddWindow, LastWindow;
  }

  lemma {:induction false} RunInOrder(c: Config, run: seq<State>, i: nat, r: bool)
    requires c.Valid() && IsRun(c, run) && i < |run|
    requires if r then run[0].sb.phase <= c.phases else NeverReckless(c, run)
    ensures InOrder(c, run[i], r)
  {
    hide InOrder, Step, Init, Reckless;
    if i == 0 {
      StartsInOrder(c, run[0], r);
    } else {
      RunInOrder(c, run, i - 1, r);
      assert Step(c, run[i - 1], run[i - 1 + 1]);
      StepInOrder(c, run[i - 1], run[i], r);
    }
  }

  lemma StartsInOrder(c: Config, s: State, r: bool)
    requires c.Valid() && Init(c, s) && (r ==> s.sb.phase <= c.phases)
    ensures InOrder(c, s, r)
  {
    hide Inv;
    InitHolds(c, s);
  }

  lemma BadIsSeen(c: Config, s: State, r: bool)
    requires Bad(c, s, r) && s.pc.Off? && (s.sb.stage == SplitResult ==> !r)
    ensures Unrecoverable(c, s.pm, s.sb)
  {}

  /**
   * Over every run, with crashes in the windows and resumptions of what they left: a state that passes
   * the test is completed by the next resumption.  In the split stage that is so as long as nothing has
   * been resumed recklessly.
   */
  lemma PassedIsInevitable(c: Config, run: seq<State>)
    requires c.Valid() && IsRun(c, run) && run[|run| - 1].pc.Off?
    requires NeverReckless(c, run) || (run[0].sb.phase <= c.phases && run[|run| - 1].sb.stage != SplitResult)
    requires !Unrecoverable(c, run[|run| - 1].pm, run[|run| - 1].sb)
    ensures Inevitable(c, run[|run| - 1])
  {
    hide Inv, Bad, Unrecoverable, Inevitable, IsRun, NeverReckless, Durable, InWindow, Phased, Fails, Doomed;
    assert |run| >= 1 by { AnyRunNonEmpty(c, run); }
    var s := run[|run| - 1];
    var r := !NeverReckless(c, run);
    RunInOrder(c, run, |run| - 1, r);
    if Bad(c, s, r) { BadIsSeen(c, s, r); }
    InvFacts(c, s);
    ResumedIff(c, s);
  }

  lemma AnyRunNonEmpty(c: Config, run: seq<State>)
    requires IsRun(c, run)
    ensures |run| >= 1
  {}

  // ----- testing before every resumption

  ghost predicate GuardedStep(c: Config, s: State, s': State) {
    || (Next(c, s, s') && (s.pc.Off? ==> !Unrecoverable(c, s.pm, s.sb)))
    || Crash(s, s')
  }

  /** Crashes anywhere; nothing is resumed that fails the test. */
  ghost predicate IsGuardedRun(c: Config, run: seq<State>) {
    && |run| >= 1
    && Init(c, run[0])
    && (forall i :: 0 <= i < |run| - 1 ==> GuardedStep(c, run[i], run[i + 1]))
  }

  ghost predicate Guarded(c: Config, s: State) {
    Inv(c, s) || (s.pc.Off? && InWindow(c, s))
  }

  lemma GuardedStepKeeps(c: Config, s: State, s': State)
    requires c.Valid() && Guarded(c, s) && GuardedStep(c, s, s')
    ensures Guarded(c, s')
  {
    hide Inv, Over, InWindow, Next, Unrecoverable, Durable;
    assert Durable(c, s.pm, s.sb) || InWindow(c, s) by { if Inv(c, s) { InvFacts(c, s); } }
    UnrecoverableIff(c, s);
    if Crash(s, s') {
      if InWindow(c, s) { WindowStays(c, s, s'); } else { SafeStepKeeps(c, s, s'); }
    } else {
      assert Over(c, s) ==> s.pc.Off? && s == s.(pc := Off) by { OverIsOff(c, s); }
      NextKeeps(c, s, s');
    }
  }

  lemma OverIsOff(c: Config, s: State)
    ensures Over(c, s) ==> s.pc.Off?
  {}

  lemma {:induction false} GuardedRunKeeps(c: Config, run: seq<State>, i: nat)
    requires c.Valid() && IsGuardedRun(c, run) && i < |run|
    ensures Guarded(c, run[i])
  {
    hide Guarded, GuardedStep, Init;
    if i == 0 {
      StartsGuarded(c, run[0]);
    } else {
      GuardedRunKeeps(c, run, i - 1);
      assert GuardedStep(c, run[i - 1], run[i - 1 + 1]);
      GuardedStepKeeps(c, run[i - 1], run[i]);
    }
  }

  lemma StartsGuarded(c: Config, s: State)
    requires c.Valid() && Init(c, s)
    ensures Guarded(c, s)
  {
    hide Inv;
    InitHolds(c, s);
  }

  /**
   * With the test made before every resumption, power may fail anywhere: no exception is ever raised,
   * an end is a sorted output, and the test tells exactly whether the next resumption is sure to finish.
   */
  lemma GuardedIsExact(c: Config, run: seq<State>)
    requires c.Valid() && IsGuardedRun(c, run)
    ensures var s := run[|run| - 1];
      && !s.pc.Threw?
      && (s.pc.Done? ==> s.sb.stage == Idle && SortedOutput(c, s.pm))
      && (s.pc.Off? ==> (Inevitable(c, s) <==> !Unrecoverable(c, s.pm, s.sb)))
      && (s.pc.Off? ==> (Fails(c, s) <==> Unrecoverable(c, s.pm, s.sb)))
  {
    hide Inv, InWindow, Unrecoverable, Durable, Inevitable, Fails, IsGuardedRun, SortedOutput, Finished, Doomed, Over;
    assert |run| >= 1 by { GuardedNonEmpty(c, run); }
    var s := run[|run| - 1];
    GuardedRunKeeps(c, run, |run| - 1);
    if Inv(c, s) { InvFacts(c, s); }
    if s.pc.Done? { FinishedIsSorted(c, s.pm); }
    if s.pc.Off? { ResumedIff(c, s); }
  }

  lemma GuardedNonEmpty(c: Config, run: seq<State>)
    requires IsGuardedRun(c, run)
    ensures |run| >= 1
  {}

  // ----- what no test can see

  /** Some pool with the same keys is in order under the same superblock, and would be completed. */
  ghost predicate LooksSound(c: Config, s: State) {
    exists pm: Pm :: pm.Keys == s.pm.Keys && Durable(c, pm, s.sb) && Inevitable(c, State(pm, s.sb, Off))
  }

  /** Interrupted in the last step of the split, with nothing but `x` in the merged chunk. */
  ghost predicate Forged(c: Config, s: State, x: Record) {
    && s.pc.Off? && AtSplit(s, c.Chunks() - 1) && Only(c, s.pm, {c.phases + 1, c.phases + 2})
    && MergedKey(c) in s.pm && s.pm[MergedKey(c)] == Hole(c, x, c.phases + 1)
    && (forall i :: 0 <= i < c.Chunks() - 1 ==> OutKey(c, i) in s.pm)
  }

  lemma ForgedEnds(c: Config, s: State, x: Record)
    requires c.Valid() && Forged(c, s, x)
    ensures var pm := s.pm[LastKey(c) := Filled(x, c.records)] - {MergedKey(c)};
      Leads(c, s, State(pm, s.sb.(stage := Idle), Done), false)
  {
    hide Leads, Pow2, Hole, Filled, Only, Cut, ChunkSize;
    var m, v := s.pm[MergedKey(c)], Filled(x, c.records);
    ResumesLast(c, s, m);
    HoleSlice(c, x, c.Chunks() - 1);
    var s1 := s.(pm := (s.pm - {LastKey(c)})[MergedKey(c) := m], pc := SetOut(c.Chunks() - 1));
    OutputLeads(c, s1, c.Chunks() - 1, v);
    var s2 := s.(pm := s1.pm[LastKey(c) := v], pc := SetOut(c.Chunks()));
    SplitLeadsToIdle(c, s2);
    var t := State(s2.pm - {MergedKey(c)}, s.sb.(stage := Idle), Done);
    assert t.pm == s.pm[LastKey(c) := v] - {MergedKey(c)};
    LeadsOn(c, s1, s2, t, false);
    LeadsOn(c, s, s1, t, false);
  }

  /** A pool in order: the merged chunk is the sorted input, and every output is its slice. */
  ghost function Sound(c: Config, ks: set<Key>, m: seq<Record>): (pm: Pm)
    ensures pm.Keys == ks
  {
    map k | k in ks :: if k == MergedKey(c) then m else SliceOf(m, c.records, k.index)
  }

  ghost function SliceOf(m: seq<Record>, r: nat, i: nat): (v: seq<Record>) {
    if i * r + r <= |m| then m[i * r..i * r + r] else m
  }

  lemma ForgedLooksSound(c: Config, s: State, x: Record)
    requires c.Valid() && Forged(c, s, x)
    ensures LooksSound(c, s) && !Unrecoverable(c, s.pm, s.sb)
  {
    var m := SortOf(Flatten(c.input));
    SortOfSorts(Flatten(c.input));
    WholeIsGood(c, m);
    GoodTop(c, m);
    var pm := Sound(c, s.pm.Keys, m);
    SoundIsDurable(c, s, x, m);
    hide Inevitable, Pow2, Hole, Durable, Unrecoverable, Fails, Doomed, Over;
    assert !Unrecoverable(c, pm, s.sb) && !Unrecoverable(c, s.pm, s.sb) by { ForgedPasses(c, s, x, pm); }
    ResumedIff(c, State(pm, s.sb, Off));
  }

  lemma ForgedPasses(c: Config, s: State, x: Record, pm: Pm)
    requires c.Valid() && Forged(c, s, x) && pm.Keys == s.pm.Keys
    ensures !Unrecoverable(c, s.pm, s.sb) && !Unrecoverable(c, pm, s.sb)
  {
    hide Pow2, Hole;
    assert TierOf(TierKey(1, 0)) == 1;
    assert MergedKey(c) in pm.Keys && TierKey(1, 0) !in pm.Keys;
  }

  lemma WholeIsGood(c: Config, m: seq<Record>)
    requires c.Valid() && Sorted(m) && multiset(m) == multiset(Flatten(c.input))
    ensures Good(c, c.phases, 0, m)
  {
    hide Sorted, Flatten;
    assert 0 * Pow2(c.phases) == 0 && 1 * Pow2(c.phases) == Pow2(c.phases);
    assert c.input[0..Pow2(c.phases)] == c.input;
  }

  lemma SoundIsDurable(c: Config, s: State, x: Record, m: seq<Record>)
    requires c.Valid() && Forged(c, s, x) && Good(c, c.phases, 0, m) && |m| == c.Chunks() * c.records
    ensures Durable(c, Sound(c, s.pm.Keys, m), s.sb)
  {
    SoundOutputs(c, s, x, m);
    hide Good, Pow2, OutsAre, IsSlice, Hole;
  }

  lemma SoundOutputs(c: Config, s: State, x: Record, m: seq<Record>)
    requires c.Valid() && Forged(c, s, x) && |m| == c.Chunks() * c.records
    ensures OutsAre(c, Sound(c, s.pm.Keys, m), m, c.Chunks() - 1)
  {
    hide Pow2, Hole, Only;
    var q := Sound(c, s.pm.Keys, m);
    forall i | 0 <= i < c.Chunks() - 1 ensures OutKey(c, i) in q && IsSlice(m, c.records, i, q[OutKey(c, i)]) {
      SliceInside(i, c.Chunks(), c.records);
      assert OutKey(c, i) in s.pm.Keys;
    }
  }

  least lemma LeadsAnyway(c: Config, s: State, t: State)
    requires Leads(c, s, t, false)
    ensures Leads(c, s, t, true)
  {
    hide Next, Crash;
    if s != t {
      var s' :| Next(c, s, s') && Leads(c, s', t, false);
      LeadsAnyway(c, s', t);
    }
  }

  lemma LeadsToCrash(c: Config, s: State, t: State)
    requires Leads(c, s, t, false)
    ensures Leads(c, s, t.(pc := Off), true)
  {
    hide Leads;
    LeadsAnyway(c, s, t);
    Stay(c, t.(pc := Off), true);
    ThenCrash(c, t, t.(pc := Off));
    LeadsOn(c, s, t, t.(pc := Off), true);
  }

  /**
   * A crash in the second window, resumed and interrupted once more: superblock and keys are then those
   * of a pool in order, so that no test of them can tell, and yet the next resumption may end over a
   * wrong output.
   */
  lemma LostIsUnseen(c: Config, s: State) returns (t: State)
    requires c.Valid() && s.pc.Off? && LastWindow(c, s.pm, s.sb)
    ensures Leads(c, s, t, true) && t.pc.Off?
    ensures LooksSound(c, t) && !Unrecoverable(c, t.pm, t.sb) && !Inevitable(c, t)
  {
    hide Leads, LooksSound, Inevitable, Pow2, Finished, Filled, ChunkSize, SortedOutput, Unrecoverable;
    WindowIsLost(c, s);
    var w, v := WrongEnding(c, s.pm);
    var x := OtherThan(w);
    var m := Hole(c, x, c.phases + 1);
    ResumesLast(c, s, m);
    var s1 := s.(pm := (s.pm - {LastKey(c)})[MergedKey(c) := m], pc := SetOut(c.Chunks() - 1));
    LeadsToCrash(c, s, s1);
    t := s1.(pc := Off);
    assert Forged(c, t, x) by { LostIsForged(c, s, t, x); }
    ForgedLooksSound(c, t, x);
    ForgedEnds(c, t, x);
    var pm := t.pm[LastKey(c) := v] - {MergedKey(c)};
    assert pm == s.pm[LastKey(c) := v];
    MayEndWrong(c, t, State(pm, t.sb.(stage := Idle), Done));
  }

  lemma OneMerged(c: Config)
    ensures TierSize(c, c.phases + 1) == 1
  {}

  lemma LostIsForged(c: Config, s: State, t: State, x: Record)
    requires c.Valid() && LastWindow(c, s.pm, s.sb)
    requires t == State((s.pm - {LastKey(c)})[MergedKey(c) := Hole(c, x, c.phases + 1)], s.sb, Off)
    ensures Forged(c, t, x)
  {
    hide Good, IsSlice, Hole, Pow2;
    OneMerged(c);
  }

  // ----- a finished sort started again

  lemma OnlyOutputs(c: Config, pm: Pm, k: Key)
    requires Completed(c, pm) && TierOf(k) != c.phases + 2
    ensures k !in pm
  {
    hide Finished;
  }

  /** Each resumption gets one chunk further through a quicksort phase without input. */
  lemma {:induction false} SortsNothing(c: Config, s: State, i: nat) returns (t: State)
    requires c.Valid() && s.pc == SetChunk(i, true) && i <= c.Chunks() && s.sb.stage != SplitResult
    requires Completed(c, s.pm)
    ensures Leads(c, s, t, true) && t.pm == s.pm && t.pc == Loop(0, 1)
    decreases c.Chunks() - i
  {
    hide Leads, Pow2, Completed, Cut, Sorted, Sorting.Merge, Tiers.TierSize, ChunkSize, Creates;
    if i < c.Chunks() {
      assert TierKey(0, i) !in s.pm by { OnlyOutputs(c, s.pm, TierKey(0, i)); }
      var s1 := s.(sb := s.sb.(stage := SortChunks, index := i), pc := OpenInput(i, true));
      var s2 := s.(sb := s.sb.(stage := MergeChunks, index := i + 1), pc := SetChunk(i + 1, true));
      t := SortsNothing(c, s2, i + 1);
      Then(c, s1.(pc := SetOdd(i + 1)), s2, t, true);
      Then(c, s1.(pc := Off), s1.(pc := SetOdd(i + 1)), t, true);
      ThenCrash(c, s1, t);
      Then(c, s, s1, t, true);
    } else {
      var s1, s2 := s.(pc := SetFirstMerge), State(s.pm, Superblock(MergeChunks, 0, 1), Enter(0, 1));
      t := s2.(pc := Loop(0, 1));
      OneStep(c, s2, t, true);
      Then(c, s1, s2, t, true);
      Then(c, s, s1, t, true);
    }
  }

  lemma StartsHollow(c: Config, t: State, x: Record)
    requires c.Valid() && Completed(c, t.pm) && t.pc == Loop(0, 1)
    ensures HollowAt(c, t, x, 0, 0, 1, true)
  {
    hide Good, IsSlice, Pow2, Hole;
  }

  lemma SplitForges(c: Config, s: State, x: Record, i: nat) returns (t: State)
    requires c.Valid() && s.pc.SetSplit? && Hollow(c, s.pm, x, 0) && i >= 2 && Tidy(c, s.pm, i, c.phases)
    ensures Leads(c, s, t, true) && Forged(c, t, x)
    ensures forall i :: 0 <= i < c.Chunks() - 1 ==> t.pm[OutKey(c, i)] == Filled(x, c.records)
  {
    hide Leads, Pow2, Hollow, Filled, Hole, TierKeys, Tidy, Cut, Tiers.TierSize;
    var n := c.Chunks() - 1;
    var s1 := HollowStarts(c, s, x, 0);
    var s2 := HollowSplits(c, s1, x, 0, n);
    var s3 := s2.(sb := s2.sb.(stage := SplitResult, index := n), pc := CreateOut(n));
    OneStep(c, s2, s3, false);
    LeadsOn(c, s1, s2, s3, false);
    LeadsOn(c, s, s1, s3, false);
    LeadsToCrash(c, s, s3);
    t := s3.(pc := Off);
    TidyIsOnly(c, s.pm, i, t.pm);
  }

  lemma TidyIsOnly(c: Config, pm: Pm, i: nat, pm': Pm)
    requires c.Valid() && i >= 2 && Tidy(c, pm, i, c.phases)
    requires pm'.Keys <= pm.Keys + {MergedKey(c)} + TierKeys(c, c.phases + 2)
    ensures Only(c, pm', {c.phases + 1, c.phases + 2})
  {
    hide Pow2;
    TopTier(c);
    OneMerged(c);
    forall k | k in pm' ensures TierOf(k) in {c.phases + 1, c.phases + 2} && InTier(c, k, TierOf(k)) {
      assert k in pm'.Keys;
      InTierIsMember(c, k, c.phases + 2);
    }
  }

  /**
   * In every configuration, a finished sort that is started again and resumed after each exception may
   * come to end over a wrong output although superblock and keys are those of a pool in order.
   */
  lemma AgainIsUnseen(c: Config, s: State) returns (t: State)
    requires c.Valid() && Over(c, s)
    ensures Leads(c, s, t, true) && t.pc.Off?
    ensures LooksSound(c, t) && !Unrecoverable(c, t.pm, t.sb) && !Inevitable(c, t)
  {
    hide Leads, LooksSound, Inevitable, Pow2, Completed, Filled, Hole, SortedOutput, Unrecoverable, Tidy, Hollow;
    hide Next, Only;
    var x := OtherThan(c.input[0][0]);
    var s1 := s.(pc := SetChunk(0, true));
    var s2 := SortsNothing(c, s1, 0);
    StartsHollow(c, s2, x);
    var s3 := HollowMerges(c, s2, x, 0, 0, 1, true);
    var i :| i >= 2 && Tidy(c, s3.pm, i, c.phases);
    t := SplitForges(c, s3, x, i);
    LeadsAnyway(c, s2, s3);
    LeadsOn(c, s2, s3, t, true);
    LeadsOn(c, s1, s2, t, true);
    BootsAgain(c, s);
    Then(c, s, s1, t, true);
    ForgedLooksSound(c, t, x);
    ForgedEnds(c, t, x);
    var pm := t.pm[LastKey(c) := Filled(x, c.records)] - {MergedKey(c)};
    UniformIsWrong(c, pm, x);
    MayEndWrong(c, t, State(pm, t.sb.(stage := Idle), Done));
  }

  lemma BootsAgain(c: Config, s: State)
    requires Over(c, s)
    ensures Next(c, s, s.(pc := SetChunk(0, true))) && s.sb.stage == Idle
  {
    hide Completed;
  }
}
