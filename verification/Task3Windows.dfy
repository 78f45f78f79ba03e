/**
 * Task 3 resumed from any pool at all: when a resumption ends in an exception, and what a crash inside
 * one of the two windows leads to.
 */
module Task3Windows {
  import opened Records
  import opened KeyNames
  import opened Tiers
  import opened Pool
  import opened Task3
  import Sorting

  // ----- exceptions

  /** Every continuation without a crash is finite and ends with an idle superblock. */
  least predicate Ends(c: Config, s: State) {
    || (s.pc.Done? && s.sb.stage == Idle)
    || ((exists s' :: Next(c, s, s')) && (forall s' :: Next(c, s, s') ==> Ends(c, s')))
  }

  /** Every continuation without a crash is finite and ends in an exception. */
  least predicate Doomed(c: Config, s: State) {
    || s.pc.Threw?
    || ((exists s' :: Next(c, s, s')) && (forall s' :: Next(c, s, s') ==> Doomed(c, s')))
  }

  /** The first input chunk that a resumption would open is missing. */
  ghost predicate Starved(c: Config, pm: Pm, sb: Superblock) {
    || (sb.stage == Idle && TierKey(0, 0) !in pm)
    || (sb.stage == SortChunks && TierKey(0, sb.index) !in pm && Missing(c, pm, sb.index + 1))
  }

  ghost predicate Missing(c: Config, pm: Pm, i: nat) { i < c.Chunks() && TierKey(0, i) !in pm }

  /** No open of an input chunk lies ahead that could fail. */
  ghost predicate Fed(c: Config, s: State) {
    match s.pc
    case Off => !Starved(c, s.pm, s.sb)
    case OpenSorted(i) => TierKey(0, i) in s.pm
    case EraseSorted(i) => TierKey(0, i) in s.pm
    case SetOdd(i) => !Missing(c, s.pm, i)
    case SetChunk(i, first) => first ==> !Missing(c, s.pm, i)
    case OpenInput(i, first) => first ==> TierKey(0, i) in s.pm
    case Threw => false
    case _ => true
  }

  /** Nothing else lies ahead. */
  ghost predicate Hungry(c: Config, s: State) {
    match s.pc
    case Off => Starved(c, s.pm, s.sb)
    case SetOdd(i) => Missing(c, s.pm, i)
    case SetChunk(i, first) => first && Missing(c, s.pm, i)
    case OpenInput(i, first) => first && TierKey(0, i) !in s.pm
    case Threw => true
    case _ => false
  }

  lemma SortStaysFed(c: Config, s: State, s': State)
    requires Fed(c, s) && Next(c, s, s') && InSort(s.pc)
    ensures Fed(c, s')
  {
    hide Pow2, Sorted;
  }

  /** Only the quicksort phase opens input chunks. */
  lemma MergeStaysFed(c: Config, s: State, s': State)
    requires Next(c, s, s') && !InSort(s.pc) && !InSplit(s.pc)
    ensures !InSort(s'.pc) && !s'.pc.Threw?
  {
    hide Pow2, Sorting.Merge, Tiers.TierSize, TierKey, ChunkSize;
  }

  lemma SplitStaysFed(c: Config, s: State, s': State)
    requires Next(c, s, s') && InSplit(s.pc)
    ensures !InSort(s'.pc) && !s'.pc.Threw?
  {
    hide Pow2, Cut, TierKey, ChunkSize;
  }

  lemma StaysFed(c: Config, s: State, s': State)
    requires Fed(c, s) && Next(c, s, s')
    ensures Fed(c, s')
  {
    hide Next, Starved, Missing;
    if InSort(s.pc) { SortStaysFed(c, s, s'); }
    else if InSplit(s.pc) { SplitStaysFed(c, s, s'); }
    else { MergeStaysFed(c, s, s'); }
  }

  lemma StaysHungry(c: Config, s: State, s': State)
    requires Hungry(c, s) && Next(c, s, s')
    ensures Hungry(c, s')
  {
    hide Pow2;
  }

  lemma {:induction false} FedEnds(c: Config, s: State)
    requires Shape(c, s) && Fed(c, s)
    ensures Ends(c, s)
    decreases Distance(c, s.pc), Work(c, s.pc)
  {
    hide Next, Shape, Distance, Work;
    if s.pc.Done? {
      DoneIsIdle(c, s);
    } else {
      Enabled(c, s);
      forall s' | Next(c, s, s') ensures Ends(c, s') {
        NextAdvances(c, s, s');
        StaysFed(c, s, s');
        FedEnds(c, s');
      }
    }
  }

  lemma {:induction false} HungryIsDoomed(c: Config, s: State)
    requires Shape(c, s) && Hungry(c, s)
    ensures Doomed(c, s)
    decreases Distance(c, s.pc), Work(c, s.pc)
  {
    hide Next, Shape, Distance, Work;
    if !s.pc.Threw? {
      Enabled(c, s);
      forall s' | Next(c, s, s') ensures Doomed(c, s') {
        NextAdvances(c, s, s');
        StaysHungry(c, s, s');
        HungryIsDoomed(c, s');
      }
    }
  }

  /**
   * Whatever the pool holds, a resumption that is left alone comes to an end, and the superblock and two
   * keys decide which: an exception if the first input chunk to be opened is missing, idle otherwise.
   */
  lemma OutcomeOfResumption(c: Config, s: State)
    requires s.pc.Off? && Shape(c, s)
    ensures if Starved(c, s.pm, s.sb) then Doomed(c, s) else Ends(c, s)
  {
    hide Next, Starved;
    if Starved(c, s.pm, s.sb) { HungryIsDoomed(c, s); } else { FedEnds(c, s); }
  }

  least lemma DoomedIsNotInevitable(c: Config, s: State)
    requires Doomed(c, s)
    ensures !Inevitable(c, s)
  {
    hide *;
    if s.pc.Threw? {
      forall s' ensures !Next(c, s, s') { TerminalStops(c, s, s'); }
    } else {
      var s' :| Next(c, s, s');
      if s.pc.Done? { TerminalStops(c, s, s'); }
      assert Doomed(c, s');
      DoomedIsNotInevitable(c, s');
    }
  }

  // ----- what may happen

  /** Some continuation leads from one state to the other; `crash`: with power failures on the way. */
  least predicate Leads(c: Config, s: State, t: State, crash: bool) {
    s == t || (exists s' :: (Next(c, s, s') || (crash && Crash(s, s'))) && Leads(c, s', t, crash))
  }

  least lemma LeadsOn(c: Config, s: State, t: State, u: State, crash: bool)
    requires Leads(c, s, t, crash)
    ensures Leads(c, t, u, crash) ==> Leads(c, s, u, crash)
  {
    hide Next, Crash;
    if s != t {
      var s' :| (Next(c, s, s') || (crash && Crash(s, s'))) && Leads(c, s', t, crash);
      LeadsOn(c, s', t, u, crash);
    }
  }

  lemma Stay(c: Config, s: State, crash: bool)
    ensures Leads(c, s, s, crash)
  {
    hide Next, Crash;
  }

  lemma OneStep(c: Config, s: State, t: State, crash: bool)
    requires Next(c, s, t)
    ensures Leads(c, s, t, crash)
  {
    hide Next, Crash;
    assert Leads(c, t, t, crash);
  }

  /** One more step, at the front. */
  lemma Then(c: Config, s: State, s': State, t: State, crash: bool)
    requires Next(c, s, s') && Leads(c, s', t, crash)
    ensures Leads(c, s, t, crash)
  {
    hide Next, Crash;
  }

  lemma ThenCrash(c: Config, s: State, t: State)
    requires Leads(c, s.(pc := Off), t, true)
    ensures Leads(c, s, t, true)
  {
    hide Next;
    assert Crash(s, s.(pc := Off));
  }

  /** A state that may end over a wrong output is not sure to end over the right one. */
  least lemma MayEndWrong(c: Config, s: State, t: State)
    requires Leads(c, s, t, false)
    requires t.pc.Done? && !SortedOutput(c, t.pm)
    ensures !Inevitable(c, s)
  {
    hide Next, SortedOutput;
    if s == t {
      forall s' ensures !Next(c, s, s') { TerminalStops(c, s, s'); }
    } else {
      var s' :| Next(c, s, s') && Leads(c, s', t, false);
      if s.pc.Done? { TerminalStops(c, s, s'); }
      MayEndWrong(c, s', t);
    }
  }

  // ----- the second window: the merged chunk is gone, the superblock says split

  function LastKey(c: Config): (k: Key) { OutKey(c, c.Chunks() - 1) }

  /** Everything but the merged chunk and the last output. */
  ghost function Rest(c: Config, pm: Pm): (r: Pm) { pm - {MergedKey(c), LastKey(c)} }

  /** The last output has been replaced by as many records of any kind. */
  ghost predicate Replaced(c: Config, pm: Pm, pm': Pm) {
    LastKey(c) in pm' && |pm'[LastKey(c)]| == c.records && pm' == pm[LastKey(c) := pm'[LastKey(c)]]
  }

  /** The rest of the pool is as it was; a merged chunk, if there is one, has the size of one. */
  ghost predicate Relic(c: Config, pm0: Pm, pm: Pm) {
    && Rest(c, pm) == Rest(c, pm0)
    && (MergedKey(c) in pm ==> |pm[MergedKey(c)]| == ChunkSize(c, c.phases + 1))
  }

  ghost predicate Written(c: Config, pm: Pm) {
    LastKey(c) in pm && |pm[LastKey(c)]| == c.records
  }

  /** A crash in the second window of pool `pm0` has been resumed. */
  ghost predicate Lost(c: Config, pm0: Pm, s: State) {
    && Relic(c, pm0, s.pm) && LastKey(c) in pm0 && MergedKey(c) !in pm0
    && (s.sb.stage == Idle || AtSplit(s, c.Chunks() - 1))
    && (s.sb.stage == Idle ==> (s.pc.Off? || s.pc.Done?) && Replaced(c, pm0, s.pm))
    && match s.pc
       case Off => true
       case EraseOut(i) => i + 1 == c.Chunks()
       case OpenMerged(i) => i + 1 == c.Chunks()
       case SetOut(i) =>
         && MergedKey(c) in s.pm && c.Chunks() - 1 <= i <= c.Chunks()
         && (i == c.Chunks() ==> Written(c, s.pm))
       case CreateOut(i) => MergedKey(c) in s.pm && i + 1 == c.Chunks()
       case WriteOut(i) => MergedKey(c) in s.pm && i + 1 == c.Chunks()
       case EraseMerged => Written(c, s.pm)
       case SetIdle => MergedKey(c) !in s.pm && Written(c, s.pm)
       case Done => s.sb.stage == Idle
       case _ => false
  }

  /** Starting anew. */
  ghost predicate Restarts(s: State, s': State) {
    s.pc.Off? && !s'.pc.Off? && s.sb.stage == Idle
  }

  lemma BootIsNotOff(c: Config, s: State, s': State)
    requires Next(c, s, s') && s.pc.Off?
    ensures !s'.pc.Off?
  {
    hide TierKey;
  }

  lemma RestIsAll(c: Config, pm0: Pm, pm: Pm)
    requires Rest(c, pm) == Rest(c, pm0) && MergedKey(c) !in pm && MergedKey(c) !in pm0 && Written(c, pm)
    ensures Replaced(c, pm0, pm)
  {
    hide Pow2;
    var q := pm0[LastKey(c) := pm[LastKey(c)]];
    forall k ensures k in pm <==> k in q {
      assert k in Rest(c, pm) <==> k in Rest(c, pm0);
    }
    forall k | k in pm && k != LastKey(c) ensures pm[k] == pm0[k] {
      assert k in Rest(c, pm) && Rest(c, pm)[k] == Rest(c, pm0)[k];
    }
  }

  lemma CutSize(c: Config, m: seq<Record>, i: nat, v: seq<Record>)
    requires Cut(c, m, i, v)
    ensures |v| == c.records
  {}

  lemma RelicTouch(c: Config, pm0: Pm, pm: Pm, k: Key, v: seq<Record>)
    requires Relic(c, pm0, pm) && (k == MergedKey(c) || k == LastKey(c))
    requires k == MergedKey(c) ==> |v| == ChunkSize(c, c.phases + 1)
    ensures Relic(c, pm0, pm[k := v]) && Relic(c, pm0, pm - {k})
  {
    hide Pow2, ChunkSize;
    assert Rest(c, pm[k := v]) == Rest(c, pm) == Rest(c, pm - {k});
  }

  lemma StaysLost(c: Config, pm0: Pm, s: State, s': State)
    requires c.Valid() && Lost(c, pm0, s) && Next(c, s, s') && !Restarts(s, s')
    ensures Lost(c, pm0, s') && !s'.pc.Off?
  {
    hide Pow2, Cut, Relic, ChunkSize, Replaced;
    match s.pc
    case Off =>
    case EraseOut(i) => RelicTouch(c, pm0, s.pm, LastKey(c), []);
    case OpenMerged(i) =>
      if MergedKey(c) !in s.pm { RelicTouch(c, pm0, s.pm, MergedKey(c), s'.pm[MergedKey(c)]); }
    case SetOut(i) =>
    case CreateOut(i) => RelicTouch(c, pm0, s.pm, LastKey(c), s'.pm[LastKey(c)]);
    case WriteOut(i) =>
      CutSize(c, s.pm[MergedKey(c)], i, s'.pm[LastKey(c)]);
      RelicTouch(c, pm0, s.pm, LastKey(c), s'.pm[LastKey(c)]);
    case EraseMerged => EraseStaysLost(c, pm0, s, s');
    case SetIdle => IdleStaysLost(c, pm0, s, s');
    case Done =>
  }

  lemma EraseStaysLost(c: Config, pm0: Pm, s: State, s': State)
    requires c.Valid() && Lost(c, pm0, s) && Next(c, s, s') && s.pc.EraseMerged?
    ensures Lost(c, pm0, s')
  {
    hide Pow2, ChunkSize, Replaced;
    assert Rest(c, s'.pm) == Rest(c, s.pm);
  }

  lemma IdleStaysLost(c: Config, pm0: Pm, s: State, s': State)
    requires c.Valid() && Lost(c, pm0, s) && Next(c, s, s') && s.pc.SetIdle?
    ensures Lost(c, pm0, s')
  {
    hide Pow2, ChunkSize, Replaced;
    RestIsAll(c, pm0, s.pm);
  }

  lemma WindowIsLost(c: Config, s: State)
    requires c.Valid() && s.pc.Off? && LastWindow(c, s.pm, s.sb)
    ensures Lost(c, s.pm, s)
  {
    hide Pow2, Good, IsSlice;
  }

  /**
   * Over every run from a crash in the second window, resumed and interrupted anywhere: nothing but the
   * last output ever changes, and when the superblock is idle again that one holds as many records as
   * before.
   */
  lemma {:induction false} LastWindowRuns(c: Config, run: seq<State>, i: nat)
    requires c.Valid() && i < |run| && run[0].pc.Off? && LastWindow(c, run[0].pm, run[0].sb)
    requires forall j :: 0 <= j < |run| - 1 ==> Step(c, run[j], run[j + 1]) && !Restarts(run[j], run[j + 1])
    ensures Lost(c, run[0].pm, run[i])
    ensures !run[i].pc.Threw? && Rest(c, run[i].pm) == Rest(c, run[0].pm)
    ensures run[i].sb.stage == Idle ==> Replaced(c, run[0].pm, run[i].pm)
  {
    hide Step, Restarts, Rest, Replaced, LastWindow;
    if i == 0 {
      WindowIsLost(c, run[0]);
    } else {
      LastWindowRuns(c, run, i - 1);
      assert Step(c, run[i - 1], run[i - 1 + 1]) && !Restarts(run[i - 1], run[i - 1 + 1]);
      StepStaysLost(c, run[0].pm, run[i - 1], run[i]);
    }
  }

  ghost predicate Step(c: Config, s: State, s': State) {
    Next(c, s, s') || Crash(s, s')
  }

  lemma StepStaysLost(c: Config, pm0: Pm, s: State, s': State)
    requires c.Valid() && Lost(c, pm0, s) && Step(c, s, s') && !Restarts(s, s')
    ensures Lost(c, pm0, s')
  {
    hide Next, Restarts, Relic, Replaced;
    if Next(c, s, s') { StaysLost(c, pm0, s, s'); }
  }

  least lemma EndsReplaced(c: Config, pm0: Pm, s: State, t: State)
    requires Leads(c, s, t, false)
    requires c.Valid() && Lost(c, pm0, s) && (s.pc.Off? ==> s.sb.stage != Idle) && t.pc.Done?
    ensures Replaced(c, pm0, t.pm)
  {
    hide Next, Lost, Replaced;
    if s == t {
      LostDone(c, pm0, s);
    } else {
      var s' :| Next(c, s, s') && Leads(c, s', t, false);
      StaysLost(c, pm0, s, s');
      EndsReplaced(c, pm0, s', t);
    }
  }

  lemma LostDone(c: Config, pm0: Pm, s: State)
    requires Lost(c, pm0, s) && s.pc.Done?
    ensures Replaced(c, pm0, s.pm)
  {
    hide Relic, Replaced;
  }

  /** A merged chunk whose last slice is `v`. */
  ghost function Ending(c: Config, v: seq<Record>): (m: seq<Record>) {
    Filled(Blank(), (c.Chunks() - 1) * c.records) + v
  }

  lemma EndingSlice(c: Config, v: seq<Record>)
    requires c.Valid() && |v| == c.records
    ensures |Ending(c, v)| == ChunkSize(c, c.phases + 1)
    ensures Cut(c, Ending(c, v), c.Chunks() - 1, v)
  {
    hide Pow2;
    var n := c.Chunks();
    assert (n - 1) * c.records + c.records == n * c.records;
    assert Ending(c, v)[(n - 1) * c.records..(n - 1) * c.records + c.records] == v;
  }

  lemma CreatesOutput(c: Config, s: State, i: nat, v: seq<Record>)
    requires s.pc == SetOut(i) && i < c.Chunks()
    ensures var s1 := State(s.pm, s.sb.(stage := SplitResult, index := i), CreateOut(i));
      Next(c, s, s1) && Next(c, s1, s1.(pm := s.pm[OutKey(c, i) := v], pc := WriteOut(i)))
  {
    hide Pow2, Cut, Sorted, Sorting.Merge, Tiers.TierSize, ChunkSize;
  }

  lemma WritesOutput(c: Config, s: State, i: nat, v: seq<Record>)
    requires s.pc == WriteOut(i) && OutKey(c, i) in s.pm && s.pm[OutKey(c, i)] == v
    requires MergedKey(c) in s.pm && Cut(c, s.pm[MergedKey(c)], i, v)
    ensures Next(c, s, s.(pc := SetOut(i + 1)))
  {
    hide Pow2, Cut, Sorted, Sorting.Merge, Tiers.TierSize, ChunkSize;
    assert s.pm[OutKey(c, i) := v] == s.pm;
  }

  /** The split loop writes one output. */
  lemma OutputLeads(c: Config, s: State, i: nat, v: seq<Record>)
    requires s.pc == SetOut(i) && i < c.Chunks()
    requires MergedKey(c) in s.pm && Cut(c, s.pm[MergedKey(c)], i, v)
    ensures var sb := s.sb.(stage := SplitResult, index := i);
      Leads(c, s, State(s.pm[OutKey(c, i) := v], sb, SetOut(i + 1)), false)
  {
    hide Leads, Next, Pow2, Cut;
    var sb := s.sb.(stage := SplitResult, index := i);
    var s1 := State(s.pm, sb, CreateOut(i));
    var s2 := State(s.pm[OutKey(c, i) := v], sb, WriteOut(i));
    var s3 := s2.(pc := SetOut(i + 1));
    CreatesOutput(c, s, i, v);
    WritesOutput(c, s2, i, v);
    OneStep(c, s2, s3, false);
    Then(c, s1, s2, s3, false);
    Then(c, s, s1, s3, false);
  }

  lemma IdlesAtLast(c: Config, s: State)
    ensures s.pc == SetOut(c.Chunks()) ==> Next(c, s, s.(pc := EraseMerged))
    ensures s.pc.EraseMerged? ==> Next(c, s, s.(pm := s.pm - {MergedKey(c)}, pc := SetIdle))
    ensures s.pc.SetIdle? ==> Next(c, s, s.(sb := s.sb.(stage := Idle), pc := Done))
  {
    hide Pow2, Cut, Sorted, Sorting.Merge, Tiers.TierSize, ChunkSize, TierKey;
  }

  lemma SplitLeadsToIdle(c: Config, s: State)
    requires s.pc == SetOut(c.Chunks())
    ensures Leads(c, s, State(s.pm - {MergedKey(c)}, s.sb.(stage := Idle), Done), false)
  {
    hide Leads, Pow2, Next, TierKey;
    var s1, s2 := s.(pc := EraseMerged), s.(pm := s.pm - {MergedKey(c)}, pc := SetIdle);
    var s3 := s2.(sb := s.sb.(stage := Idle), pc := Done);
    IdlesAtLast(c, s2);
    OneStep(c, s2, s3, false);
    IdlesAtLast(c, s1);
    Then(c, s1, s2, s3, false);
    IdlesAtLast(c, s);
    Then(c, s, s1, s3, false);
  }

  /** Resumed in the last step of the split, with the merged chunk it finds or gets. */
  lemma ResumesLast(c: Config, s: State, m: seq<Record>)
    requires s.pc.Off? && AtSplit(s, c.Chunks() - 1)
    requires if MergedKey(c) in s.pm then m == s.pm[MergedKey(c)] else |m| == ChunkSize(c, c.phases + 1)
    ensures var pm := (s.pm - {LastKey(c)})[MergedKey(c) := m];
      Leads(c, s, s.(pm := pm, pc := SetOut(c.Chunks() - 1)), false)
  {
    hide Leads, Pow2, Cut, Sorted, Sorting.Merge, Tiers.TierSize, ChunkSize;
    var i, pm := c.Chunks() - 1, s.pm - {LastKey(c)};
    var s1, s2 := s.(pc := EraseOut(i)), s.(pm := pm, pc := OpenMerged(i));
    var s3 := s.(pm := pm[MergedKey(c) := m], pc := SetOut(i));
    if MergedKey(c) in s.pm { assert s3.pm == pm; }
    OneStep(c, s2, s3, false);
    Then(c, s1, s2, s3, false);
    Then(c, s, s1, s3, false);
  }

  lemma LastWindowMayEnd(c: Config, s: State, v: seq<Record>)
    requires c.Valid() && s.pc.Off? && LastWindow(c, s.pm, s.sb) && |v| == c.records
    ensures Leads(c, s, State(s.pm[LastKey(c) := v], s.sb.(stage := Idle), Done), false)
  {
    hide Leads, Pow2, Cut, Ending, ChunkSize;
    WindowIsLost(c, s);
    EndingSlice(c, v);
    var m := Ending(c, v);
    var pm1 := (s.pm - {LastKey(c)})[MergedKey(c) := m];
    var s1 := s.(pm := pm1, pc := SetOut(c.Chunks() - 1));
    var s2 := s1.(pm := pm1[LastKey(c) := v], pc := SetOut(c.Chunks()));
    var t := State(s2.pm - {MergedKey(c)}, s.sb.(stage := Idle), Done);
    assert t.pm == s.pm[LastKey(c) := v];
    ResumesLast(c, s, m);
    OutputLeads(c, s1, c.Chunks() - 1, v);
    SplitLeadsToIdle(c, s2);
    LeadsOn(c, s1, s2, t, false);
    LeadsOn(c, s, s1, t, false);
  }

  /**
   * After a crash in the second window, the pools over which an uninterrupted resumption may end are
   * exactly those with any other records in the last output.
   */
  lemma LastWindowEndsIff(c: Config, s: State, pm: Pm)
    requires c.Valid() && s.pc.Off? && LastWindow(c, s.pm, s.sb)
    ensures Ends(c, s)
    ensures (exists t :: Leads(c, s, t, false) && t.pc.Done? && t.pm == pm) <==> Replaced(c, s.pm, pm)
  {
    hide Ends, Leads, Replaced, Lost, Shape;
    WindowIsLost(c, s);
    LastShape(c, s);
    OutcomeOfResumption(c, s);
    if Replaced(c, s.pm, pm) {
      ReplacedIs(c, s.pm, pm);
      LastWindowMayEnd(c, s, pm[LastKey(c)]);
      assert State(pm, s.sb.(stage := Idle), Done).pc.Done?;
    }
    if t :| Leads(c, s, t, false) && t.pc.Done? && t.pm == pm {
      EndsReplaced(c, s.pm, s, t);
    }
  }

  lemma ReplacedIs(c: Config, pm: Pm, pm': Pm)
    requires Replaced(c, pm, pm')
    ensures LastKey(c) in pm' && |pm'[LastKey(c)]| == c.records && pm[LastKey(c) := pm'[LastKey(c)]] == pm'
  {}

  lemma LastShape(c: Config, s: State)
    requires s.pc.Off? && LastWindow(c, s.pm, s.sb)
    ensures Shape(c, s) && !Starved(c, s.pm, s.sb) && s.sb.stage != Idle
  {}

  /** Only a sorted rearrangement of the records that were there makes the result right. */
  lemma ReplacedRightIff(c: Config, pm: Pm, v: seq<Record>)
    requires c.Valid() && Finished(c, pm) && |v| == c.records
    ensures LastKey(c) in pm
    ensures SortedOutput(c, pm[LastKey(c) := v]) <==> Sorted(v) && multiset(v) == multiset(pm[LastKey(c)])
  {
    hide Pow2, Sorted, Flatten, Good;
    FinishedIsSorted(c, pm);
    var n, q := c.Chunks(), pm[LastKey(c) := v];
    var a, b := Outputs(c, pm, n), Outputs(c, q, n);
    var front := a[..n - 1];
    assert b[..n - 1] == front && a[n - 1] == pm[LastKey(c)] && b[n - 1] == v;
    FlattenLast(a);
    FlattenLast(b);
    SortedEndIff(Flatten(front), pm[LastKey(c)], v);
  }

  lemma SortedEndIff(f: seq<Record>, w: seq<Record>, v: seq<Record>)
    requires Sorted(f + w)
    ensures Sorted(f + v) && multiset(f + v) == multiset(f + w) <==> Sorted(v) && multiset(v) == multiset(w)
  {
    if Sorted(f + v) && multiset(f + v) == multiset(f + w) {
      assert forall i :: 0 <= i < |v| ==> v[i] == (f + v)[|f| + i];
      assert multiset(f) + multiset(v) == multiset(f) + multiset(w);
      forall x ensures multiset(v)[x] == multiset(w)[x] {
        assert (multiset(f) + multiset(v))[x] == multiset(f)[x] + multiset(v)[x];
        assert (multiset(f) + multiset(w))[x] == multiset(f)[x] + multiset(w)[x];
      }
    }
    if Sorted(v) && multiset(v) == multiset(w) {
      forall i, j | 0 <= i < |f| && 0 <= j < |v| ensures SortKey(f[i]) <= SortKey(v[j]) {
        assert v[j] in multiset(v);
        var k :| 0 <= k < |w| && w[k] == v[j];
        assert (f + w)[i] == f[i] && (f + w)[|f| + k] == w[k];
      }
      forall i, j | 0 <= i <= j < |f| ensures SortKey(f[i]) <= SortKey(f[j]) {
        assert (f + w)[i] == f[i] && (f + w)[j] == f[j];
      }
    }
  }

  // ----- the first window: the superblock says merge, the pool is still being sorted

  lemma FilledMerge(x: Record, a: nat, b: nat)
    ensures Sorting.Merge(Filled(x, a), Filled(x, b)) == Filled(x, a + b)
  {
    hide Sorting.Merge;
    var u, v := Filled(x, a), Filled(x, b);
    var m := Sorting.Merge(u, v);
    Sorting.MergeHolds(u, v);
    assert |m| == |multiset(m)| == |multiset(u)| + |multiset(v)| == a + b;
    forall k | 0 <= k < |m| ensures m[k] == x {
      assert m[k] in multiset(m);
      assert m[k] in u || m[k] in v;
    }
  }

  ghost function Hole(c: Config, x: Record, t: nat): (v: seq<Record>) { Filled(x, ChunkSize(c, t)) }

  lemma HolesMerge(c: Config, x: Record, p: nat)
    requires p >= 1
    ensures Sorting.Merge(Hole(c, x, p), Hole(c, x, p)) == Hole(c, x, p + 1)
  {
    hide Filled, Sorting.Merge;
    FilledMerge(x, ChunkSize(c, p), ChunkSize(c, p));
    assert c.records * Width(p) + c.records * Width(p) == c.records * Width(p + 1) by {
      assert Width(p + 1) == 2 * Width(p);
    }
  }

  /** Chunk `k` holds nothing but `x`, or memory that does is what it will be given. */
  ghost predicate HollowKey(c: Config, pm: Pm, x: Record, k: Key) {
    k in pm ==> pm[k] == Hole(c, x, TierOf(k))
  }

  /** The pair at `i` merged, with the memory it is given holding nothing but `x`. */
  ghost function Onward(c: Config, s: State, x: Record, i: nat, p: nat): (t: State) {
    State(s.pm[DstKey(p, i) := Hole(c, x, p + 1)] - {TierKey(p, i)} - {TierKey(p, i + 1)},
          Superblock(MergeChunks, i, p), Loop(i + 2, p))
  }

  /** Both sources opened. */
  ghost function Paired(c: Config, pm: Pm, x: Record, i: nat, p: nat): (pm': Pm) {
    pm[DstKey(p, i) := Hole(c, x, p + 1)][TierKey(p, i) := Hole(c, x, p)][TierKey(p, i + 1) := Hole(c, x, p)]
  }

  lemma OpensHollow(c: Config, s: State, x: Record, i: nat, p: nat)
    requires HollowKey(c, s.pm, x, TierKey(p, i)) && p >= 1
    ensures s.pc == Open1(i, p) ==> Next(c, s, s.(pm := s.pm[TierKey(p, i) := Hole(c, x, p)], pc := Open2(i, p)))
    ensures i >= 1 && s.pc == Open2(i - 1, p) ==>
      Next(c, s, s.(pm := s.pm[TierKey(p, i) := Hole(c, x, p)], pc := WriteDst(i - 1, p)))
  {
    hide Pow2, Filled, ChunkSize, Cut, Sorted, Sorting.Merge, Tiers.TierSize;
    var k, v := TierKey(p, i), Hole(c, x, p);
    assert TierOf(k) == p;
    if k in s.pm { assert s.pm[k := v] == s.pm; }
  }

  lemma HollowWrite(c: Config, pm: Pm, x: Record, k: Key, k': Key, v: seq<Record>)
    requires HollowKey(c, pm, x, k) && k != k'
    ensures HollowKey(c, pm[k' := v], x, k)
  {}

  lemma PairKeysDiffer(i: nat, p: nat)
    requires p >= 1
    ensures DstKey(p, i) != TierKey(p, i) && DstKey(p, i) != TierKey(p, i + 1) && TierKey(p, i) != TierKey(p, i + 1)
  {}

  lemma PairOpens(c: Config, s: State, x: Record, i: nat, p: nat)
    requires s.pc == Loop(i, p) && AtPair(c, i, p)
    requires HollowKey(c, s.pm, x, TierKey(p, i)) && HollowKey(c, s.pm, x, TierKey(p, i + 1))
    ensures Leads(c, s, State(Paired(c, s.pm, x, i, p), Superblock(MergeChunks, i, p), WriteDst(i, p)), false)
  {
    PairKeysDiffer(i, p);
    hide Leads, Pow2, Hole, HollowKey, TierKey, DstKey, Tiers.TierSize, Next;
    var d, k1, k2, v := DstKey(p, i), TierKey(p, i), TierKey(p, i + 1), Hole(c, x, p);
    var s1 := s.(sb := Superblock(MergeChunks, i, p), pc := CreateDst(i, p));
    var s2 := s1.(pm := s.pm[d := Hole(c, x, p + 1)], pc := Open1(i, p));
    var s3 := s1.(pm := s2.pm[k1 := v], pc := Open2(i, p));
    var s4 := s1.(pm := s3.pm[k2 := v], pc := WriteDst(i, p));
    HollowWrite(c, s.pm, x, k1, d, Hole(c, x, p + 1));
    HollowWrite(c, s.pm, x, k2, d, Hole(c, x, p + 1));
    HollowWrite(c, s2.pm, x, k2, k1, v);
    OpensHollow(c, s3, x, i + 1, p);
    OneStep(c, s3, s4, false);
    OpensHollow(c, s2, x, i, p);
    Then(c, s2, s3, s4, false);
    CreatesDst(c, s, i, p, Hole(c, x, p + 1));
    Then(c, s1, s2, s4, false);
    Then(c, s, s1, s4, false);
  }

  lemma CreatesDst(c: Config, s: State, i: nat, p: nat, v: seq<Record>)
    requires s.pc == Loop(i, p) && i < TierSize(c, p)
    ensures var s1 := s.(sb := Superblock(MergeChunks, i, p), pc := CreateDst(i, p));
      && Next(c, s, s1)
      && Next(c, s1, s1.(pm := s.pm[DstKey(p, i) := v], pc := Open1(i, p)))
  {
    hide Pow2, Cut, Sorted, Sorting.Merge, Tiers.TierSize;
  }

  lemma PairMerges(c: Config, s: State, x: Record, i: nat, p: nat, pm: Pm)
    requires s.pc == WriteDst(i, p) && p >= 1 && s.pm == Paired(c, pm, x, i, p)
    ensures var pm' := pm[DstKey(p, i) := Hole(c, x, p + 1)] - {TierKey(p, i)} - {TierKey(p, i + 1)};
      Leads(c, s, s.(pm := pm', pc := Loop(i + 2, p)), false)
  {
    PairKeysDiffer(i, p);
    hide Leads, Next, Hole, TierKey, DstKey;
    var d, k1, k2 := DstKey(p, i), TierKey(p, i), TierKey(p, i + 1);
    var s1 := s.(pc := Erase1(i, p));
    var s2 := s.(pm := s.pm - {k1}, pc := Erase2(i, p));
    var s3 := s.(pm := s2.pm - {k2}, pc := Loop(i + 2, p));
    assert s3.pm == pm[d := Hole(c, x, p + 1)] - {k1} - {k2};
    ErasesPair(c, s2, i, p);
    OneStep(c, s2, s3, false);
    ErasesPair(c, s1, i, p);
    Then(c, s1, s2, s3, false);
    MergesHoles(c, s, x, i, p, pm);
    Then(c, s, s1, s3, false);
  }

  lemma MergesHoles(c: Config, s: State, x: Record, i: nat, p: nat, pm: Pm)
    requires s.pc == WriteDst(i, p) && p >= 1 && s.pm == Paired(c, pm, x, i, p)
    ensures Next(c, s, s.(pc := Erase1(i, p)))
  {
    PairKeysDiffer(i, p);
    HolesMerge(c, x, p);
    hide Pow2, Hole, Cut, Sorted, Sorting.Merge, Tiers.TierSize, TierKey, DstKey;
    assert s.pm[DstKey(p, i) := Hole(c, x, p + 1)] == s.pm;
  }

  lemma ErasesPair(c: Config, s: State, i: nat, p: nat)
    ensures s.pc == Erase1(i, p) ==> Next(c, s, s.(pm := s.pm - {TierKey(p, i)}, pc := Erase2(i, p)))
    ensures s.pc == Erase2(i, p) ==> Next(c, s, s.(pm := s.pm - {TierKey(p, i + 1)}, pc := Loop(i + 2, p)))
  {
    hide Pow2, Cut, Sorted, Sorting.Merge, Tiers.TierSize, TierKey, DstKey;
  }

  lemma PairLeads(c: Config, s: State, x: Record, i: nat, p: nat)
    requires s.pc == Loop(i, p) && AtPair(c, i, p)
    requires HollowKey(c, s.pm, x, TierKey(p, i)) && HollowKey(c, s.pm, x, TierKey(p, i + 1))
    ensures Leads(c, s, Onward(c, s, x, i, p), false)
  {
    hide Leads, Pow2, Hole, HollowKey, Paired, Tiers.TierSize;
    var t := State(Paired(c, s.pm, x, i, p), Superblock(MergeChunks, i, p), WriteDst(i, p));
    PairOpens(c, s, x, i, p);
    PairMerges(c, t, x, i, p, s.pm);
    LeadsOn(c, s, t, Onward(c, s, x, i, p), false);
  }

  /** Sorted chunks exist below `n` only, and whatever has been merged holds nothing but `x`. */
  ghost predicate Hollow(c: Config, pm: Pm, x: Record, n: nat) {
    && (forall k :: k in pm && TierOf(k) == 1 ==> k.index < n)
    && (forall k :: k in pm && 2 <= TierOf(k) <= c.phases + 1 ==> HollowKey(c, pm, x, k))
  }

  /** Nothing else is in the pool than the two levels of the phase, and all outputs are. */
  ghost predicate Tidy(c: Config, pm: Pm, i: nat, p: nat) {
    && i % 2 == 0 && i <= TierSize(c, p) && Only(c, pm, {p, p + 1, c.phases + 2})
    && (forall k :: k in pm && TierOf(k) == p ==> k.index >= i)
    && (forall j :: 0 <= j < c.Chunks() ==> OutKey(c, j) in pm)
    && (p == c.phases && i >= 1 ==> MergedKey(c) in pm)
  }

  /** The inner merge loop is at pair `i` of phase `p`, over such a pool. */
  ghost predicate HollowAt(c: Config, s: State, x: Record, n: nat, i: nat, p: nat, tidy: bool) {
    && s.pc == Loop(i, p) && 1 <= p <= c.phases
    && Hollow(c, s.pm, x, n) && (p == 1 ==> i >= n)
    && (tidy ==> Tidy(c, s.pm, i, p))
  }

  lemma HollowSources(c: Config, s: State, x: Record, n: nat, i: nat, p: nat, tidy: bool)
    requires HollowAt(c, s, x, n, i, p, tidy)
    ensures HollowKey(c, s.pm, x, TierKey(p, i)) && HollowKey(c, s.pm, x, TierKey(p, i + 1))
  {
    hide Hole, Tidy, Pow2;
    assert TierOf(TierKey(p, i)) == TierOf(TierKey(p, i + 1)) == p;
  }

  lemma HollowOnward(c: Config, s: State, x: Record, n: nat, i: nat, p: nat, tidy: bool)
    requires c.Valid() && HollowAt(c, s, x, n, i, p, tidy) && i < TierSize(c, p)
    ensures HollowAt(c, Onward(c, s, x, i, p), x, n, i + 2, p, tidy)
  {
    hide Hole, Tidy, Pow2, Tiers.TierSize;
    assert TierOf(DstKey(p, i)) == p + 1;
    if tidy { TidyOnward(c, s, x, i, p); }
  }

  lemma TidyOnward(c: Config, s: State, x: Record, i: nat, p: nat)
    requires c.Valid() && 1 <= p <= c.phases && Tidy(c, s.pm, i, p) && i < TierSize(c, p)
    ensures Tidy(c, Onward(c, s, x, i, p).pm, i + 2, p)
  {
    TierHalves(c, p);
    if p == c.phases { TopTier(c); }
    TidyKeys(c, s, x, i, p);
    TidySources(c, s, x, i, p);
    hide Hole, Pow2, Tiers.TierSize, Only;
    var pm := Onward(c, s, x, i, p).pm;
    assert p == c.phases ==> DstKey(p, i) == MergedKey(c);
    forall j | 0 <= j < c.Chunks() ensures OutKey(c, j) in pm {
      assert OutKey(c, j) != TierKey(p, i) && OutKey(c, j) != TierKey(p, i + 1);
    }
  }

  lemma TidySources(c: Config, s: State, x: Record, i: nat, p: nat)
    requires 1 <= p <= c.phases && Tidy(c, s.pm, i, p)
    ensures forall k :: k in Onward(c, s, x, i, p).pm && TierOf(k) == p ==> k.index >= i + 2
  {
    hide Hole, Pow2, Tiers.TierSize, Only;
    assert TierOf(DstKey(p, i)) == p + 1;
    forall k | k in s.pm && TierOf(k) == p && k.index < i + 2 ensures k == TierKey(p, i) || k == TierKey(p, i + 1) {
      OnlyInTier(c, s.pm, k, {p, p + 1, c.phases + 2});
    }
  }

  lemma TidyKeys(c: Config, s: State, x: Record, i: nat, p: nat)
    requires 1 <= p <= c.phases && Only(c, s.pm, {p, p + 1, c.phases + 2}) && i < TierSize(c, p)
    ensures Only(c, Onward(c, s, x, i, p).pm, {p, p + 1, c.phases + 2})
  {
    TierHalves(c, p);
    hide Hole, Pow2, Tiers.TierSize, Only;
    var d, v, ts := DstKey(p, i), Hole(c, x, p + 1), {p, p + 1, c.phases + 2};
    assert d == TierKey(p + 1, i / 2);
    OnlyWrite(c, s.pm, d, v, ts);
    OnlyErase(c, s.pm[d := v], TierKey(p, i), ts);
    OnlyErase(c, s.pm[d := v] - {TierKey(p, i)}, TierKey(p, i + 1), ts);
  }

  lemma OnlyInTier(c: Config, pm: Pm, k: Key, ts: set<nat>)
    requires Only(c, pm, ts) && k in pm
    ensures k == TierKey(TierOf(k), k.index)
  {}

  lemma TopTier(c: Config)
    requires c.Valid()
    ensures TierSize(c, c.phases) == 2
  {
    assert Pow2(1) == 2 * Pow2(0) == 2;
  }

  lemma TidyNext(c: Config, pm: Pm, i: nat, p: nat)
    requires c.Valid() && 1 <= p < c.phases && Tidy(c, pm, i, p) && i >= TierSize(c, p)
    ensures Tidy(c, pm, 0, p + 1)
  {
    hide Pow2;
  }

  /** All merge phases, with memory that holds nothing but `x`. */
  lemma {:induction false} HollowMerges(c: Config, s: State, x: Record, n: nat, i: nat, p: nat, tidy: bool)
    returns (t: State)
    requires c.Valid() && HollowAt(c, s, x, n, i, p, tidy)
    ensures Leads(c, s, t, false) && t.pc.SetSplit? && Hollow(c, t.pm, x, n)
    ensures tidy ==> exists i :: i >= 2 && Tidy(c, t.pm, i, c.phases)
    decreases c.phases - p, if i < TierSize(c, p) then TierSize(c, p) - i else 0
  {
    hide Leads, Hollow, Pow2, Tidy, Hole, HollowKey, Tiers.TierSize;
    if i < TierSize(c, p) {
      HollowSources(c, s, x, n, i, p, tidy);
      HollowOnward(c, s, x, n, i, p, tidy);
      PairLeads(c, s, x, i, p);
      t := HollowMerges(c, Onward(c, s, x, i, p), x, n, i + 2, p, tidy);
      LeadsOn(c, s, Onward(c, s, x, i, p), t, false);
    } else if p < c.phases {
      var s1 := s.(sb := Superblock(MergeChunks, 0, p + 1), pc := Loop(0, p + 1));
      if tidy { TidyNext(c, s.pm, i, p); }
      t := HollowMerges(c, s1, x, n, 0, p + 1, tidy);
      Then(c, s.(pc := Enter(0, p + 1)), s1, t, false);
      Then(c, s, s.(pc := Enter(0, p + 1)), t, false);
    } else {
      t := s.(pc := SetSplit);
      TopTier(c);
      OneStep(c, s.(pc := Enter(0, p + 1)), t, false);
      Then(c, s, s.(pc := Enter(0, p + 1)), t, false);
    }
  }

  /** The split loop is at output `j`, over a merged chunk of nothing but `x`. */
  ghost predicate HollowSplit(c: Config, s: State, x: Record, j: nat) {
    && s.pc == SetOut(j) && s.sb.stage == SplitResult && j <= c.Chunks()
    && MergedKey(c) in s.pm && s.pm[MergedKey(c)] == Hole(c, x, c.phases + 1)
    && (forall i :: 0 <= i < j ==> OutKey(c, i) in s.pm && s.pm[OutKey(c, i)] == Filled(x, c.records))
  }

  lemma HoleSlice(c: Config, x: Record, j: nat)
    requires c.Valid() && j < c.Chunks()
    ensures Cut(c, Hole(c, x, c.phases + 1), j, Filled(x, c.records))
  {
    hide Pow2;
    var m := Hole(c, x, c.phases + 1);
    assert |m| == c.Chunks() * c.records;
    SliceInside(j, c.Chunks(), c.records);
    assert m[j * c.records..j * c.records + c.records] == Filled(x, c.records);
  }

  lemma HollowStarts(c: Config, s: State, x: Record, n: nat) returns (t: State)
    requires c.Valid() && s.pc.SetSplit? && Hollow(c, s.pm, x, n)
    ensures Leads(c, s, t, false) && HollowSplit(c, t, x, 0)
    ensures t.pm.Keys == s.pm.Keys + {MergedKey(c)}
  {
    hide Leads, Pow2, Filled, ChunkSize, Cut, Sorted, Sorting.Merge, Tiers.TierSize;
    var k, v := MergedKey(c), Hole(c, x, c.phases + 1);
    assert TierOf(k) == c.phases + 1;
    var s1 := s.(sb := s.sb.(stage := SplitResult, index := 0), pc := OpenMerged(0));
    t := s1.(pm := s.pm[k := v], pc := SetOut(0));
    if k in s.pm { assert t.pm == s.pm; }
    OneStep(c, s1, t, false);
    Then(c, s, s1, t, false);
  }

  lemma {:induction false} HollowSplits(c: Config, s: State, x: Record, j: nat, n: nat) returns (t: State)
    requires c.Valid() && HollowSplit(c, s, x, j) && j <= n <= c.Chunks()
    ensures Leads(c, s, t, false) && HollowSplit(c, t, x, n)
    ensures t.pm.Keys <= s.pm.Keys + TierKeys(c, c.phases + 2) && s.pm.Keys <= t.pm.Keys
    decreases n - j
  {
    hide Leads, Pow2, Hole, Filled, Cut, TierKeys;
    if j == n {
      t := s;
      Stay(c, s, false);
    } else {
      var v := Filled(x, c.records);
      var s1 := State(s.pm[OutKey(c, j) := v], s.sb.(stage := SplitResult, index := j), SetOut(j + 1));
      HoleSlice(c, x, j);
      OutputLeads(c, s, j, v);
      HollowSplitNext(c, s, x, j);
      t := HollowSplits(c, s1, x, j + 1, n);
      LeadsOn(c, s, s1, t, false);
    }
  }

  lemma HollowSplitNext(c: Config, s: State, x: Record, j: nat)
    requires HollowSplit(c, s, x, j) && j < c.Chunks()
    ensures var t := State(s.pm[OutKey(c, j) := Filled(x, c.records)],
                           s.sb.(stage := SplitResult, index := j), SetOut(j + 1));
      HollowSplit(c, t, x, j + 1) && OutKey(c, j) in TierKeys(c, c.phases + 2)
  {
    hide Pow2, Filled, Hole;
  }

  /** The pool and the superblock of the first window lead past the sorted chunks. */
  lemma OddWindowSkips(c: Config, s: State)
    requires c.Valid() && s.pc.Off? && OddWindow(c, s.pm, s.sb)
    ensures Boot(c, s.pm, s.sb) == SetSkip(s.sb.index + 2, s.sb.phase)
    ensures forall x :: Hollow(c, s.pm, x, s.sb.index)
  {
    hide Good, Pow2, Holds, Hole;
  }

  lemma SkipLeads(c: Config, s: State, i: nat, p: nat) returns (t: State)
    requires s.pc == SetSkip(i, p)
    ensures Leads(c, s, t, false) && t.pm == s.pm
    ensures var q := if p == 0 then 1 else p;
      t.pc == if q > c.phases then SetSplit else Loop(i, q)
  {
    hide Leads, Pow2, Cut, Sorted, Sorting.Merge, Tiers.TierSize;
    var q := if p == 0 then 1 else p;
    var s1 := s.(sb := Superblock(MergeChunks, i, p), pc := Enter(i, p));
    t := if q > c.phases then s1.(pc := SetSplit) else s1.(sb := Superblock(MergeChunks, i, q), pc := Loop(i, q));
    OneStep(c, s1, t, false);
    Then(c, s, s1, t, false);
  }

  /** The rest of a sort that has nothing left to merge. */
  lemma HollowEnds(c: Config, s: State, x: Record, n: nat) returns (t: State)
    requires c.Valid() && s.pc.SetSplit? && Hollow(c, s.pm, x, n)
    ensures Leads(c, s, t, false) && t.pc.Done? && t.sb.stage == Idle && Uniform(c, t.pm, x)
  {
    hide Leads, Pow2, Hollow, Filled, Hole;
    var s1 := HollowStarts(c, s, x, n);
    var s2 := HollowSplits(c, s1, x, 0, c.Chunks());
    t := State(s2.pm - {MergedKey(c)}, s2.sb.(stage := Idle), Done);
    SplitLeadsToIdle(c, s2);
    LeadsOn(c, s1, s2, t, false);
    LeadsOn(c, s, s1, t, false);
  }

  /** Every output holds nothing but `x`. */
  ghost predicate Uniform(c: Config, pm: Pm, x: Record) {
    forall i :: 0 <= i < c.Chunks() ==> OutKey(c, i) in pm && pm[OutKey(c, i)] == Filled(x, c.records)
  }

  /**
   * After a crash in the first window, every resumption that is left alone ends with an idle superblock,
   * whatever phase is left in it; and for every record there is one that ends with nothing but this
   * record in the output.
   */
  lemma OddWindowMayEnd(c: Config, s: State, x: Record) returns (t: State)
    requires c.Valid() && s.pc.Off? && OddWindow(c, s.pm, s.sb)
    ensures Ends(c, s)
    ensures Leads(c, s, t, false) && t.pc.Done? && t.sb.stage == Idle && Uniform(c, t.pm, x)
  {
    hide Ends, Leads, Pow2, Hollow, Uniform, SortPool, Boot;
    assert Shape(c, s) && !Starved(c, s.pm, s.sb);
    OutcomeOfResumption(c, s);
    OddWindowSkips(c, s);
    var n, i, p := s.sb.index, s.sb.index + 2, s.sb.phase;
    var q := if p == 0 then 1 else p;
    var s1 := s.(pc := SetSkip(i, p));
    var s2 := SkipLeads(c, s1, i, p);
    assert Hollow(c, s2.pm, x, n);
    var s3 := s2;
    if q <= c.phases {
      s3 := HollowMerges(c, s2, x, n, i, q, false);
      LeadsOn(c, s1, s2, s3, false);
    }
    t := HollowEnds(c, s3, x, n);
    LeadsOn(c, s1, s3, t, false);
    Then(c, s, s1, t, false);
  }

  lemma UniformIsWrong(c: Config, pm: Pm, x: Record)
    requires c.Valid() && Uniform(c, pm, x) && x != c.input[0][0]
    ensures !SortedOutput(c, pm)
  {
    hide Pow2, Filled, Flatten, Sorted;
    var y, outs := c.input[0][0], Outputs(c, pm, c.Chunks());
    InFlatten(c.input, 0, 0);
    assert y in multiset(Flatten(c.input));
    if y in Flatten(outs) {
      var i, k := FromFlatten(outs, y);
    }
    assert y !in multiset(Flatten(outs));
  }

  lemma {:induction false} InFlatten(cs: seq<seq<Record>>, i: nat, k: nat)
    requires i < |cs| && k < |cs[i]|
    ensures cs[i][k] in Flatten(cs)
  {
    hide Flatten;
    FlattenLast(cs);
    var n := |cs| - 1;
    if i < n { InFlatten(cs[..n], i, k); }
  }

  lemma {:induction false} FromFlatten(cs: seq<seq<Record>>, y: Record) returns (i: nat, k: nat)
    requires y in Flatten(cs)
    ensures i < |cs| && k < |cs[i]| && cs[i][k] == y
  {
    FlattenEmpty();
    hide Flatten;
    FlattenLast(cs);
    var n := |cs| - 1;
    if y in cs[n] {
      k :| 0 <= k < |cs[n]| && cs[n][k] == y;
      i := n;
    } else {
      i, k := FromFlatten(cs[..n], y);
    }
  }

  ghost function OtherThan(y: Record): (x: Record)
    ensures x != y
  {
    var ones := RawRecord(seq(RECORD_SIZE, _ => 1));
    assert Blank().bytes[0] != ones.bytes[0];
    if y == Blank() then ones else Blank()
  }

  /** All chunks of the first pool are in the second. */
  ghost predicate Retained(pm0: Pm, pm: Pm) {
    forall k :: k in pm0 ==> k in pm && pm[k] == pm0[k]
  }

  /** Merging is past the sorted chunks below `n`. */
  ghost predicate Past(n: nat, i: nat, p: nat) { p <= 1 ==> i >= n }

  ghost predicate PastPc(n: nat, pc: Pc) {
    match pc
    case EraseSrc(i, p) => p >= 1 && Past(n, i, p)
    case OpenSrc(i, p) => p >= 1 && Past(n, i, p)
    case OpenDst(i, p) => p >= 1 && Past(n, i, p)
    case EraseDst(i, p) => p >= 1 && Past(n, i, p)
    case SetSkip(i, p) => Past(n, i, p)
    case Enter(i, p) => Past(n, i, p)
    case Loop(i, p) => p >= 1 && Past(n, i, p)
    case CreateDst(i, p) => p >= 1 && Past(n, i, p)
    case Open1(i, p) => p >= 1 && Past(n, i, p)
    case Open2(i, p) => p >= 1 && Past(n, i, p)
    case WriteDst(i, p) => p >= 1 && Past(n, i, p)
    case Erase1(i, p) => p >= 1 && Past(n, i, p)
    case Erase2(i, p) => p >= 1 && Past(n, i, p)
    case _ => pc.Off? || (!InSort(pc) && !pc.Threw?)
  }

  ghost predicate Kept(c: Config, pm0: Pm, n: nat, s: State) {
    && Retained(pm0, s.pm) && PastPc(n, s.pc)
    && s.sb.stage != SortChunks && (s.sb.stage == MergeChunks ==> Past(n, s.sb.index, s.sb.phase))
  }

  /** Untouched input and sorted chunks below `n`. */
  ghost predicate Early(pm: Pm, n: nat) {
    forall k :: k in pm ==> TierOf(k) == 0 || (TierOf(k) == 1 && k.index < n)
  }

  lemma EarlyKeys(c: Config, pm0: Pm, n: nat, i: nat, p: nat)
    requires Early(pm0, n)
    ensures MergedKey(c) !in pm0 || c.phases == 0
    ensures OutKey(c, i) !in pm0
    ensures p >= 1 && Past(n, i, p) ==> TierKey(p, i) !in pm0 && TierKey(p, i + 1) !in pm0 && DstKey(p, i) !in pm0
  {
    assert TierOf(OutKey(c, i)) >= 2;
    assert c.phases >= 1 ==> TierOf(MergedKey(c)) >= 2;
    if p >= 1 { assert TierOf(TierKey(p, i)) == TierOf(TierKey(p, i + 1)) == p && TierOf(DstKey(p, i)) == p + 1; }
  }

  lemma StaysPast(c: Config, n: nat, s: State, s': State)
    requires PastPc(n, s.pc) && Next(c, s, s') && !(s.pc.Off? && s.sb.stage == Idle)
    requires s.sb.stage != SortChunks && (s.sb.stage == MergeChunks ==> Past(n, s.sb.index, s.sb.phase))
    ensures PastPc(n, s'.pc)
    ensures s'.sb.stage != SortChunks && (s'.sb.stage == MergeChunks ==> Past(n, s'.sb.index, s'.sb.phase))
  {
    hide Next, Past;
    if InSplit(s.pc) { SplitStaysPast(c, s, s'); } else { MergeStaysPast(c, n, s, s'); }
  }

  lemma SplitStaysPast(c: Config, s: State, s': State)
    requires Next(c, s, s') && InSplit(s.pc)
    ensures InSplit(s'.pc) && !s'.pc.Threw? && (s'.sb == s.sb || s'.sb.stage == SplitResult || s'.sb.stage == Idle)
  {
    hide Pow2, Cut, TierKey, ChunkSize;
  }

  lemma MergeStaysPast(c: Config, n: nat, s: State, s': State)
    requires PastPc(n, s.pc) && Next(c, s, s') && !(s.pc.Off? && s.sb.stage == Idle) && !InSplit(s.pc)
    requires s.sb.stage != SortChunks && (s.sb.stage == MergeChunks ==> Past(n, s.sb.index, s.sb.phase))
    ensures PastPc(n, s'.pc)
    ensures s'.sb.stage != SortChunks && (s'.sb.stage == MergeChunks ==> Past(n, s'.sb.index, s'.sb.phase))
  {
    hide Pow2, Sorted, Sorting.Merge, Tiers.TierSize, ChunkSize, TierKey, DstKey;
  }

  lemma PairRetains(c: Config, pm0: Pm, n: nat, s: State, s': State)
    requires Early(pm0, n) && Retained(pm0, s.pm) && PastPc(n, s.pc) && Next(c, s, s') && InPair(s.pc)
    ensures Retained(pm0, s'.pm)
  {
    hide Pow2, Sorting.Merge, Early, TierKey, DstKey, ChunkSize, Tiers.TierSize;
    EarlyKeys(c, pm0, n, s.pc.i, s.pc.p);
  }

  lemma OtherRetains(c: Config, pm0: Pm, n: nat, s: State, s': State)
    requires c.Valid() && Early(pm0, n) && Retained(pm0, s.pm) && PastPc(n, s.pc) && Next(c, s, s') && !InPair(s.pc)
    ensures Retained(pm0, s'.pm)
  {
    hide Pow2, Cut, Early, TierKey, DstKey, ChunkSize, Tiers.TierSize;
    match s.pc
    case EraseSrc(i, p) => EarlyKeys(c, pm0, n, i, p);
    case OpenSrc(i, p) => EarlyKeys(c, pm0, n, i, p);
    case OpenDst(i, p) => EarlyKeys(c, pm0, n, i, p);
    case EraseDst(i, p) => EarlyKeys(c, pm0, n, i, p);
    case EraseOut(i) => EarlyKeys(c, pm0, n, i, 0);
    case OpenMerged(i) => EarlyKeys(c, pm0, n, i, 0);
    case CreateOut(i) => EarlyKeys(c, pm0, n, i, 0);
    case WriteOut(i) => EarlyKeys(c, pm0, n, i, 0);
    case EraseMerged => EarlyKeys(c, pm0, n, 0, 0);
    case _ =>
  }

  lemma StaysKept(c: Config, pm0: Pm, n: nat, s: State, s': State)
    requires c.Valid() && Early(pm0, n) && Kept(c, pm0, n, s) && Step(c, s, s') && !Restarts(s, s')
    ensures Kept(c, pm0, n, s')
  {
    hide Next, Early, Retained, Past;
    if Next(c, s, s') {
      if s.pc.Off? { BootIsNotOff(c, s, s'); }
      StaysPast(c, n, s, s');
      if InPair(s.pc) { PairRetains(c, pm0, n, s, s'); } else { OtherRetains(c, pm0, n, s, s'); }
    }
  }

  /** Nor does any run from there, resumed and interrupted anywhere, lose a record: the chunks all stay. */
  lemma {:induction false} OddWindowRuns(c: Config, run: seq<State>, i: nat)
    requires c.Valid() && i < |run| && run[0].pc.Off? && OddWindow(c, run[0].pm, run[0].sb)
    requires forall j :: 0 <= j < |run| - 1 ==> Step(c, run[j], run[j + 1]) && !Restarts(run[j], run[j + 1])
    ensures Kept(c, run[0].pm, run[0].sb.index, run[i])
    ensures !run[i].pc.Threw? && forall k :: k in run[0].pm ==> k in run[i].pm && run[i].pm[k] == run[0].pm[k]
  {
    hide Step, Restarts, OddWindow, Early;
    WindowIsEarly(c, run[0].pm, run[0].sb);
    if i > 0 {
      OddWindowRuns(c, run, i - 1);
      assert Step(c, run[i - 1], run[i - 1 + 1]) && !Restarts(run[i - 1], run[i - 1 + 1]);
      StaysKept(c, run[0].pm, run[0].sb.index, run[i - 1], run[i]);
    }
  }

  lemma WindowIsEarly(c: Config, pm: Pm, sb: Superblock)
    requires OddWindow(c, pm, sb)
    ensures Early(pm, sb.index) && sb.stage == MergeChunks
  {
    hide Good, Pow2, Holds;
  }
}
