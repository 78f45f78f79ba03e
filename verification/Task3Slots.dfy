/**
 * Task 3 with its superblock kept in two slots that are rewritten field by field.  One of its updates
 * names no phase, so that afterwards the slots may differ in theirs.
 */
module Task3Slots {
  import opened Records
  import opened KeyNames
  import opened Tiers
  import opened Pool
  import Slots
  import Task3
  import Task3Runs

  datatype State = State(pm: Pm, slots: Slots.Slots, pc: Task3.Pc)

  /** The slot a reader gets. */
  function Picked(s: State): (i: Slots.Option<Slots.Image>) {
    Slots.Pick(s.slots[0].Now(), s.slots[1].Now())
  }

  /** The superblock a reader gets. */
  function Reading(s: State): (sb: Superblock) {
    if Picked(s).Some? then Slots.View(Picked(s).value) else Superblock(Idle, 0, 0)
  }

  /** The state as a program sees it that reads the superblock once. */
  function Read(s: State, sb: Superblock): (a: Task3.State) { Task3.State(s.pm, sb, s.pc) }

  /** The superblock update that the program makes at this point, if any. */
  function UpdateAt(c: Config, pc: Task3.Pc): (u: Slots.Option<Slots.Update>) {
    match pc
    case SetOdd(i) => Slots.Some(Slots.Update(MergeChunks, Slots.Some(i), Slots.None))
    case SetChunk(i, _) =>
      if i < c.Chunks() then Slots.Some(Slots.Update(SortChunks, Slots.Some(i), Slots.None)) else Slots.None
    case SetFirstMerge => Slots.Some(Slots.Update(MergeChunks, Slots.Some(0), Slots.Some(1)))
    case SetSkip(i, p) =>
      Slots.Some(Slots.Update(MergeChunks, Slots.Some(i), if p == 0 then Slots.None else Slots.Some(p)))
    case Enter(i, p) =>
      var q := if p == 0 then 1 else p;
      if q > c.phases then Slots.None else Slots.Some(Slots.Update(MergeChunks, Slots.Some(i), Slots.Some(q)))
    case Loop(i, p) =>
      if i < TierSize(c, p) then Slots.Some(Slots.Update(MergeChunks, Slots.Some(i), Slots.Some(p))) else Slots.None
    case SetSplit => Slots.Some(Slots.Update(SplitResult, Slots.Some(0), Slots.None))
    case SetOut(i) =>
      if i < c.Chunks() then Slots.Some(Slots.Update(SplitResult, Slots.Some(i), Slots.None)) else Slots.None
    case SetIdle => Slots.Some(Slots.Update(Idle, Slots.None, Slots.None))
    case _ => Slots.None
  }

  /** A step without an update, or with one that runs to its end, at whatever times. */
  ghost predicate Next(c: Config, p: Slots.Placement, s: State, s': State) {
    && Picked(s).Some?
    && match UpdateAt(c, s.pc)
       case None => s'.slots == s.slots && Task3.Next(c, Read(s, Reading(s)), Read(s', Reading(s)))
       case Some(u) =>
         && (exists t0, t1 :: s'.slots == Slots.History(s.slots, u, t0, t1, p.addr, p.intended)[11])
         && (exists sb :: Task3.Next(c, Read(s, Reading(s)), Read(s', sb)))
  }

  /** `s'` is found after power failed at point `i` of the update. */
  ghost predicate FailsAt(p: Slots.Placement, s: State, s': State, u: Slots.Update, t0: nat, t1: nat, i: nat,
                          a: Slots.Image, b: Slots.Image)
  {
    && i < 12
    && Slots.History(s.slots, u, t0, t1, p.addr, p.intended)[i][0].MayBe(a)
    && Slots.History(s.slots, u, t0, t1, p.addr, p.intended)[i][1].MayBe(b)
    && s' == State(s.pm, Slots.Recovered(a, b), Task3.Off)
  }

  /** Slot 1 is valid and reads as the pair does, as the update is to make it, or as inside a window. */
  ghost predicate SecondUsable(c: Config, s: State, u: Slots.Update) {
    var v := Slots.View(s.slots[1].Now());
    && s.slots[1].Now().valid
    && (v in {Reading(s), Slots.After(s.slots[0].Now(), u)} || Task3.InWindow(c, Read(s, v)))
  }

  /** Power fails during an update that began with slot 1 usable. */
  ghost predicate CrashInUpdate(c: Config, p: Slots.Placement, s: State, s': State) {
    && Picked(s).Some? && UpdateAt(c, s.pc).Some? && SecondUsable(c, s, UpdateAt(c, s.pc).value)
    && exists t0, t1, i, a, b :: FailsAt(p, s, s', UpdateAt(c, s.pc).value, t0, t1, i, a, b)
  }

  ghost predicate InWindow(c: Config, s: State) { Task3.InWindow(c, Read(s, Reading(s))) }

  /** Power may fail anywhere, also inside an update, unless what is read afterwards is inside a window. */
  ghost predicate SafeStep(c: Config, p: Slots.Placement, s: State, s': State) {
    || (Next(c, p, s, s') && !Task3.Over(c, Read(s, Reading(s))))
    || (s' == s.(pc := Task3.Off) && !InWindow(c, s))
    || (CrashInUpdate(c, p, s, s') && !InWindow(c, s'))
  }

  ghost predicate Init(c: Config, s: State) {
    Slots.Clean(s.slots) && Picked(s).Some? && Task3.Init(c, Read(s, Reading(s)))
  }

  ghost predicate IsSafeRun(c: Config, p: Slots.Placement, run: seq<State>) {
    && |run| >= 1
    && Init(c, run[0])
    && (forall i :: 0 <= i < |run| - 1 ==> SafeStep(c, p, run[i], run[i + 1]))
  }

  // ----- the simulation

  /** What is read is the superblock, but for fields its stage does not use and the phase in a window. */
  ghost predicate Agrees(c: Config, pm: Pm, v: Superblock, sb: Superblock) {
    && v.stage == sb.stage && (sb.stage != Idle ==> v.index == sb.index)
    && (sb.stage == MergeChunks ==> v.phase == sb.phase || Task3.OddWindow(c, pm, sb))
  }

  ghost predicate Refines(c: Config, s: State, a: Task3.State) {
    && Slots.Clean(s.slots) && Picked(s).Some? && Agrees(c, s.pm, Reading(s), a.sb)
    && a.pm == s.pm && a.pc == s.pc
  }

  lemma WindowsAgree(c: Config, pm: Pm, v: Superblock, sb: Superblock)
    requires Agrees(c, pm, v, sb)
    ensures Task3.OddWindow(c, pm, v) <==> Task3.OddWindow(c, pm, sb)
    ensures Task3.LastWindow(c, pm, v) <==> Task3.LastWindow(c, pm, sb)
  {
    hide Task3.SortPool, Task3.Completed, Pow2;
  }

  lemma OddIsNotDurable(c: Config, pm: Pm, sb: Superblock)
    requires c.Valid() && Task3.OddWindow(c, pm, sb)
    ensures !Task3.Durable(c, pm, sb)
  {
    hide Holds, Pow2;
    assert TierKey(1, 0) in pm;
  }

  /** Apart from updates, a step depends on the superblock only where it resumes. */
  lemma NextSeesOnly(c: Config, a: Task3.State, b: Task3.State, sb: Superblock)
    requires UpdateAt(c, a.pc).None? && Task3.Next(c, a, b) && b.sb == a.sb
    requires a.pc.Off? ==> Task3.Boot(c, a.pm, sb) == Task3.Boot(c, a.pm, a.sb)
    ensures Task3.Next(c, a.(sb := sb), b.(sb := sb))
  {
    hide Pow2, Task3.Boot, Task3.Cut, Sorted, Tiers.TierSize, Task3.ChunkSize, TierKey;
  }

  lemma BootAgrees(c: Config, a: Task3.State, v: Superblock)
    requires c.Valid() && a.pc.Off? && Task3.Inv(c, a) && Agrees(c, a.pm, v, a.sb)
    ensures Task3.Boot(c, a.pm, v) == Task3.Boot(c, a.pm, a.sb)
  {
    hide Task3.Durable, Task3.OddWindow, Task3.LastWindow;
    if Task3.OddWindow(c, a.pm, a.sb) { OddIsNotDurable(c, a.pm, a.sb); }
  }

  /** The superblock after the update made at `pc`. */
  ghost function Updated(c: Config, pc: Task3.Pc, sb: Superblock): (sb': Superblock)
    requires UpdateAt(c, pc).Some?
  {
    var u := UpdateAt(c, pc).value;
    Superblock(u.stage, if u.index.Some? then u.index.value else sb.index,
               if u.phase.Some? then u.phase.value else sb.phase)
  }

  /** An update changes nothing but the superblock. */
  lemma UpdateSets(c: Config, a: Task3.State, b: Task3.State, sb: Superblock)
    requires UpdateAt(c, a.pc).Some? && Task3.Next(c, a, b) && (a.pc.SetSkip? ==> a.pc.p >= 1)
    ensures b.pm == a.pm
    ensures Task3.Next(c, a.(sb := sb), b.(sb := Updated(c, a.pc, sb)))
  {
    hide Pow2, Tiers.TierSize, TierKey;
  }

  lemma UpdateEnabled(c: Config, a: Task3.State) returns (b: Task3.State)
    requires UpdateAt(c, a.pc).Some? && (a.pc.SetSkip? ==> a.pc.p >= 1)
    ensures Task3.Next(c, a, b) && b.pm == a.pm && b.sb == Updated(c, a.pc, a.sb)
  {
    hide Pow2, Tiers.TierSize;
    var pc := match a.pc
      case SetOdd(i) => Task3.SetChunk(i, true)
      case SetChunk(i, f) => Task3.OpenInput(i, f)
      case SetFirstMerge => Task3.Enter(0, 1)
      case SetSkip(i, p) => Task3.Enter(i, p)
      case Enter(i, p) => Task3.Loop(i, if p == 0 then 1 else p)
      case Loop(i, p) => Task3.CreateDst(i, p)
      case SetSplit => Task3.OpenMerged(0)
      case SetOut(i) => Task3.CreateOut(i)
      case _ => Task3.Done;
    b := a.(sb := Updated(c, a.pc, a.sb), pc := pc);
  }

  /** What an update makes of a slot agrees with what it makes of the superblock. */
  lemma AfterAgrees(c: Config, a: Task3.State, b: Task3.State, i: Slots.Image)
    requires c.Valid() && Task3.Inv(c, a) && Task3.Next(c, a, b) && UpdateAt(c, a.pc).Some?
    requires b.sb == Updated(c, a.pc, a.sb)
    ensures Agrees(c, b.pm, Slots.After(i, UpdateAt(c, a.pc).value), b.sb)
  {
    if a.pc.SetOdd? {
      OddAfterSetOdd(c, a, b);
    } else {
      SkipNamesPhase(c, a);
      hide Task3.Next, Task3.Inv, Task3.OddWindow, Pow2, Tiers.TierSize;
    }
  }

  lemma SkipNamesPhase(c: Config, a: Task3.State)
    requires Task3.Inv(c, a)
    ensures a.pc.SetSkip? ==> a.pc.p >= 1
  {
    hide Task3.Durable, Task3.MergePool, Pow2;
  }

  lemma OddAfterSetOdd(c: Config, a: Task3.State, b: Task3.State)
    requires Task3.Inv(c, a) && a.pc.SetOdd? && Task3.Next(c, a, b)
    ensures Task3.OddWindow(c, b.pm, b.sb)
  {
    hide Task3.Durable, Task3.SortPool, Pow2;
  }

  lemma NextRefines(c: Config, p: Slots.Placement, s: State, s': State, a: Task3.State) returns (b: Task3.State)
    requires c.Valid() && Task3.Inv(c, a) && p.Covered() && Refines(c, s, a) && Next(c, p, s, s')
    ensures Task3.Next(c, a, b) && Refines(c, s', b)
  {
    hide Task3.Next, Task3.Inv, Slots.History, Slots.View, Slots.After, Slots.Covers, Agrees, Updated;
    var now := Reading(s);
    match UpdateAt(c, s.pc)
    case None =>
      b := Read(s', a.sb);
      if s.pc.Off? { BootAgrees(c, a, now); }
      NextSeesOnly(c, Read(s, now), Read(s', now), a.sb);
      QuietAgrees(c, a, b, now);
    case Some(u) =>
      var t0, t1 :| s'.slots == Slots.History(s.slots, u, t0, t1, p.addr, p.intended)[11];
      var sb :| Task3.Next(c, Read(s, now), Read(s', sb));
      SkipNamesPhase(c, a);
      UpdateSets(c, Read(s, now), Read(s', sb), a.sb);
      b := Read(s', Updated(c, s.pc, a.sb));
      Slots.UpdateEnds(p, s.slots, u, t0, t1);
      AfterAgrees(c, a, b, s.slots[0].Now());
      AfterAgrees(c, a, b, s.slots[1].Now());
  }

  /** The phases differ only in the window, which no step but an update leaves. */
  lemma QuietAgrees(c: Config, a: Task3.State, b: Task3.State, v: Superblock)
    requires c.Valid() && Task3.Inv(c, a) && Agrees(c, a.pm, v, a.sb) && Task3.Next(c, a, b) && b.sb == a.sb
    ensures Agrees(c, b.pm, v, b.sb)
  {
    hide Task3.OddWindow, Task3.Next, Task3.Inv;
    if Task3.OddWindow(c, a.pm, a.sb) { WindowIsQuiet(c, a, b); }
  }

  lemma WindowIsQuiet(c: Config, a: Task3.State, b: Task3.State)
    requires c.Valid() && Task3.Inv(c, a) && Task3.OddWindow(c, a.pm, a.sb) && Task3.Next(c, a, b)
    ensures b.pm == a.pm
  {
    WindowPositions(c, a);
    hide *;
    SetterIsQuiet(c, a, b);
  }

  lemma SetterIsQuiet(c: Config, a: Task3.State, b: Task3.State)
    requires (a.pc.SetChunk? || a.pc.SetFirstMerge?) && Task3.Next(c, a, b)
    ensures b.pm == a.pm
  {
    hide Pow2;
  }

  lemma PastFirst(c: Config, pm: Pm, i: nat, p: nat)
    requires p >= 1 && i >= 1 && Task3.MergePoolExcept(c, pm, p, i)
    ensures TierKey(1, 0) !in pm
  {
    hide Holds, Pow2;
    assert TierOf(TierKey(1, 0)) == 1;
  }

  /** In the window the program is about to go on with the quicksort phase. */
  lemma WindowPositions(c: Config, a: Task3.State)
    requires c.Valid() && Task3.Inv(c, a) && Task3.OddWindow(c, a.pm, a.sb)
    ensures a.pc.SetChunk? || a.pc.SetFirstMerge?
  {
    OddIsNotDurable(c, a.pm, a.sb);
    assert TierKey(1, 0) in a.pm by { OddHasFirst(c, a.pm, a.sb); }
    hide Task3.Durable, Task3.MergePoolExcept, Task3.SortPool, Task3.Completed, Task3.SplitPool, Task3.SrcRight,
      Task3.DstRight, Pow2, TierKey, Task3.MergePool, Task3.SortPoolExcept, Tiers.TierSize;
    if Task3.InPair(a.pc) || a.pc.EraseSrc? || a.pc.OpenSrc? || a.pc.OpenDst? || a.pc.EraseDst? {
      AtPairMerges(c, a);
      PastFirst(c, a.pm, a.sb.index, a.sb.phase);
    }
  }

  lemma OddHasFirst(c: Config, pm: Pm, sb: Superblock)
    requires Task3.OddWindow(c, pm, sb)
    ensures TierKey(1, 0) in pm
  {
    hide Holds, Pow2;
  }

  lemma AtPairMerges(c: Config, a: Task3.State)
    requires Task3.Inv(c, a)
    requires Task3.InPair(a.pc) || a.pc.EraseSrc? || a.pc.OpenSrc? || a.pc.OpenDst? || a.pc.EraseDst?
    ensures a.sb.phase >= 1 && Task3.MergePoolExcept(c, a.pm, a.sb.phase, a.sb.index)
  {
    hide Task3.Durable, Task3.SrcRight, Task3.DstRight, NoneOf, AllRight, Only, Pow2, TierKey, Tiers.TierSize;
    hide Task3.OddWindow, Task3.LastWindow;
  }

  lemma FailureRefines(c: Config, p: Slots.Placement, s: State, s': State, a: Task3.State)
    returns (b: Task3.State, d: Task3.State)
    requires c.Valid() && Task3.Inv(c, a) && p.Covered() && Refines(c, s, a)
    requires CrashInUpdate(c, p, s, s') && !InWindow(c, s')
    ensures Task3.SafeStep(c, a, b) && (d == b || Task3.SafeStep(c, b, d)) && Refines(c, s', d)
  {
    hide Task3.Next, Task3.Inv, Slots.History, Slots.View, Slots.After, Slots.Covers, FailsAt, Agrees, Updated,
      Task3.OddWindow, Task3.LastWindow, Task3.Completed;
    var u := UpdateAt(c, s.pc).value;
    var t0, t1, i, x, y :| FailsAt(p, s, s', u, t0, t1, i, x, y);
    FailedState(p, s, s', u, t0, t1, i, x, y);
    SkipNamesPhase(c, a);
    var e := UpdateEnabled(c, a);
    AfterAgrees(c, a, e, s.slots[0].Now());
    AfterAgrees(c, a, e, s.slots[1].Now());
    if Reading(s') == Reading(s) {
      WindowsAgree(c, s.pm, Reading(s), a.sb);
      b := a.(pc := Task3.Off);
      d := b;
    } else {
      assert Agrees(c, s.pm, Reading(s'), e.sb);
      WindowsAgree(c, s.pm, Reading(s'), e.sb);
      b := e;
      d := e.(pc := Task3.Off);
      assert !Task3.Over(c, a) by { UpdatesRun(c, a); }
    }
  }

  lemma UpdatesRun(c: Config, a: Task3.State)
    requires UpdateAt(c, a.pc).Some?
    ensures !a.pc.Off?
  {
    hide Pow2;
  }

  lemma FailedState(p: Slots.Placement, s: State, s': State, u: Slots.Update, t0: nat, t1: nat, i: nat,
                    a: Slots.Image, b: Slots.Image)
    requires p.Covered() && Slots.Clean(s.slots) && s.slots[1].Now().valid && FailsAt(p, s, s', u, t0, t1, i, a, b)
    ensures s'.pm == s.pm && s'.pc == Task3.Off && Slots.Clean(s'.slots) && Picked(s).Some? && Picked(s').Some?
    ensures Reading(s') in {Reading(s), Slots.View(s.slots[1].Now()),
                            Slots.After(s.slots[0].Now(), u), Slots.After(s.slots[1].Now(), u)}
  {
    hide Slots.History, Slots.View, Slots.After, Slots.Covers;
    Slots.UpdateReads(p, s.slots, u, t0, t1, i, a, b);
  }

  lemma CrashRefines(c: Config, s: State, s': State, a: Task3.State)
    requires Refines(c, s, a) && s' == s.(pc := Task3.Off) && !InWindow(c, s)
    ensures Task3.SafeStep(c, a, a.(pc := Task3.Off)) && Refines(c, s', a.(pc := Task3.Off))
  {
    hide Task3.Next, Slots.View, Agrees, Task3.OddWindow, Task3.LastWindow;
    WindowsAgree(c, s.pm, Reading(s), a.sb);
  }

  lemma StepRefines(c: Config, p: Slots.Placement, s: State, s': State, atomic: seq<Task3.State>)
    returns (longer: seq<Task3.State>)
    requires c.Valid() && p.Covered() && Task3.IsSafeRun(c, atomic) && Refines(c, s, atomic[|atomic| - 1])
    requires SafeStep(c, p, s, s')
    ensures Task3.IsSafeRun(c, longer) && Refines(c, s', longer[|longer| - 1]) && atomic <= longer
  {
    hide Next, CrashInUpdate, InWindow, Task3.Next, Task3.IsSafeRun, Task3.Inv, Refines, Task3.SafeStep, Task3.Over;
    assert |atomic| >= 1 by { Task3.RunNonEmpty(c, atomic); }
    var a := atomic[|atomic| - 1];
    Task3.SafeRunKeeps(c, atomic, |atomic| - 1);
    var b, d;
    if Next(c, p, s, s') && !Task3.Over(c, Read(s, Reading(s))) {
      b := NextRefines(c, p, s, s', a);
      d := b;
      OverAgrees(c, s, a);
      Task3Runs.NextIsSafe(c, a, b);
    } else if CrashInUpdate(c, p, s, s') && !InWindow(c, s') {
      b, d := FailureRefines(c, p, s, s', a);
    } else {
      CrashRefines(c, s, s', a);
      b := a.(pc := Task3.Off);
      d := b;
    }
    Task3Runs.Extend(c, atomic, b);
    longer := atomic + [b];
    if d != b {
      Task3Runs.Extend(c, longer, d);
      longer := longer + [d];
    }
  }

  lemma OverAgrees(c: Config, s: State, a: Task3.State)
    requires Refines(c, s, a)
    ensures Task3.Over(c, Read(s, Reading(s))) <==> Task3.Over(c, a)
  {
    hide Task3.Completed, Slots.View, Task3.OddWindow;
  }

  /**
   * Every safe run over the slot pair, with power failing anywhere in an update that began with slot 1
   * usable, is a safe run of task 3 with an atomic superblock: same pool, same position, same reading.
   */
  lemma {:induction false} RunRefines(c: Config, p: Slots.Placement, run: seq<State>)
    returns (atomic: seq<Task3.State>)
    requires c.Valid() && p.Covered() && IsSafeRun(c, p, run)
    ensures Task3.IsSafeRun(c, atomic) && Refines(c, run[|run| - 1], atomic[|atomic| - 1])
    decreases |run|
  {
    if |run| == 1 {
      hide *;
      atomic := [Read(run[0], Reading(run[0]))];
      StartRefines(c, p, run);
    } else {
      hide SafeStep, Init, Refines, Task3.IsSafeRun;
      var n := |run| - 1;
      atomic := RunRefines(c, p, run[..n]);
      assert |atomic| >= 1 by { Task3.RunNonEmpty(c, atomic); }
      assert SafeStep(c, p, run[n - 1], run[n - 1 + 1]);
      atomic := StepRefines(c, p, run[n - 1], run[n], atomic);
    }
  }

  lemma StartRefines(c: Config, p: Slots.Placement, run: seq<State>)
    requires IsSafeRun(c, p, run)
    ensures var a := Read(run[0], Reading(run[0])); Refines(c, run[0], a) && Task3.IsSafeRun(c, [a])
  {
    hide SafeStep, Slots.View, Has, Only;
    Task3Runs.SingleRun(c, Read(run[0], Reading(run[0])));
  }

  /** Outside the windows what is read means the same as the superblock. */
  lemma MeansTheSame(c: Config, pm: Pm, v: Superblock, sb: Superblock)
    requires Agrees(c, pm, v, sb) && !Task3.OddWindow(c, pm, sb)
    ensures Task3.NamedKeys(c, pm, v) == Task3.NamedKeys(c, pm, sb)
    ensures Task3.Durable(c, pm, v) == Task3.Durable(c, pm, sb)
  {
    hide Task3.OddWindow, Task3.MergePoolExcept, Task3.SortPoolExcept, Task3.SplitPool, Task3.Completed, Pow2;
  }

  /**
   * So over the slots as well, outside the windows the chunks that the reading names hold exactly the
   * input records, no exception is raised, an end is a sorted output, and the test of what is read
   * decides whether resuming completes the sort.
   */
  lemma SlotCustody(c: Config, p: Slots.Placement, run: seq<State>)
    requires c.Valid() && p.Covered() && IsSafeRun(c, p, run)
    ensures var s := run[|run| - 1];
      && Picked(s).Some?
      && (!InWindow(c, s) ==> Task3.HeldBy(s.pm, Task3.NamedKeys(c, s.pm, Reading(s))) == Everything(c))
      && !s.pc.Threw?
      && (s.pc.Done? ==> Picked(s).value.stage == Idle && SortedOutput(c, s.pm))
      && (Task3.Inevitable(c, Task3.State(s.pm, Reading(s), Task3.Off))
          <==> !Task3Runs.Unrecoverable(c, s.pm, Reading(s)))
  {
    hide *;
    assert |run| >= 1 by { SafeNonEmpty(c, p, run); }
    var atomic := RunRefines(c, p, run);
    assert |atomic| >= 1 by { Task3.RunNonEmpty(c, atomic); }
    var s, a := run[|run| - 1], atomic[|atomic| - 1];
    Task3.CustodyOverRuns(c, atomic);
    Task3.SafeRunKeeps(c, atomic, |atomic| - 1);
    Task3.InvFacts(c, a);
    RefinedFacts(c, s, a);
    Task3Runs.ResumedIff(c, Task3.State(s.pm, Reading(s), Task3.Off));
  }

  lemma SafeNonEmpty(c: Config, p: Slots.Placement, run: seq<State>)
    requires IsSafeRun(c, p, run)
    ensures |run| >= 1
  {}

  lemma RefinedFacts(c: Config, s: State, a: Task3.State)
    requires Refines(c, s, a) && (Task3.Durable(c, a.pm, a.sb) || Task3.InWindow(c, a))
    ensures Picked(s).Some? && a.pm == s.pm && a.pc == s.pc && Picked(s).value.stage == a.sb.stage
    ensures InWindow(c, s) <==> Task3.InWindow(c, a)
    ensures !InWindow(c, s) ==> Task3.NamedKeys(c, s.pm, Reading(s)) == Task3.NamedKeys(c, a.pm, a.sb)
    ensures var t := Task3.State(s.pm, Reading(s), Task3.Off); Task3.Durable(c, t.pm, t.sb) || Task3.InWindow(c, t)
  {
    hide Task3.OddWindow, Task3.LastWindow, Task3.Durable, Task3.NamedKeys;
    WindowsAgree(c, s.pm, Reading(s), a.sb);
    if !Task3.OddWindow(c, a.pm, a.sb) { MeansTheSame(c, s.pm, Reading(s), a.sb); }
  }
}
