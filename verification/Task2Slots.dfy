/** Task 2 with its superblock kept in two slots that are rewritten field by field. */
module Task2Slots {
  import opened Records
  import opened KeyNames
  import opened Tiers
  import opened Pool
  import Slots
  import Task2

  datatype State = State(pm: Pm, slots: Slots.Slots, ram: Pm, pc: Task2.Pc)

  /** The slot a reader gets. */
  function Picked(s: State): (i: Slots.Option<Slots.Image>) {
    Slots.Pick(s.slots[0].Now(), s.slots[1].Now())
  }

  /** The fields of a superblock that its stage uses. */
  function Seen(sb: Superblock): (v: Superblock) {
    Slots.View(Slots.Image(true, 0, sb.stage, sb.index, sb.phase))
  }

  /** The superblock update that the program makes at this point, if any. */
  function UpdateAt(c: Config, pc: Task2.Pc): (u: Slots.Option<Slots.Update>) {
    match pc
    case SetChunk => Slots.Some(Slots.Update(SortChunks, Slots.Some(0), Slots.None))
    case SetMerge(p) => Slots.Some(Slots.Update(MergeChunks, Slots.Some(0), Slots.Some(p)))
    case EnterMerge(p) => Slots.Some(Slots.Update(MergeChunks, Slots.Some(0), Slots.Some(p)))
    case SetSplit => Slots.Some(Slots.Update(SplitResult, Slots.Some(0), Slots.None))
    case SetOut(i) =>
      if i < c.Chunks() then Slots.Some(Slots.Update(SplitResult, Slots.Some(i), Slots.None)) else Slots.None
    case SetIdle => Slots.Some(Slots.Update(Idle, Slots.None, Slots.None))
    case _ => Slots.None
  }

  /** The state as a program sees it that reads the superblock once. */
  function Read(s: State, sb: Superblock): (a: Task2.State) {
    Task2.State(s.pm, sb, s.ram, s.pc)
  }

  /** A step without an update, or with one that runs to its end, at whatever times. */
  ghost predicate Next(c: Config, p: Slots.Placement, s: State, s': State) {
    && Picked(s).Some?
    && var now := Slots.View(Picked(s).value);
       match UpdateAt(c, s.pc)
       case None => s'.slots == s.slots && Task2.Next(c, Read(s, now), Read(s', now))
       case Some(u) =>
         && (exists t0, t1 :: s'.slots == Slots.History(s.slots, u, t0, t1, p.addr, p.intended)[11])
         && (exists sb :: Task2.Next(c, Read(s, now), Read(s', sb)))
  }

  ghost predicate QuietCrash(s: State, s': State) {
    s' == s.(ram := map[], pc := Task2.Off)
  }

  /** `s'` is found after power failed at point `i` of the update. */
  ghost predicate FailsAt(p: Slots.Placement, s: State, s': State, u: Slots.Update, t0: nat, t1: nat, i: nat,
                          a: Slots.Image, b: Slots.Image)
  {
    && i < 12
    && Slots.History(s.slots, u, t0, t1, p.addr, p.intended)[i][0].MayBe(a)
    && Slots.History(s.slots, u, t0, t1, p.addr, p.intended)[i][1].MayBe(b)
    && s' == State(s.pm, Slots.Recovered(a, b), map[], Task2.Off)
  }

  /** Power fails during an update that began with slot 1 valid and current. */
  ghost predicate CrashInUpdate(c: Config, p: Slots.Placement, s: State, s': State) {
    && Picked(s).Some? && UpdateAt(c, s.pc).Some?
    && Slots.SecondCurrent(s.slots, Slots.View(Picked(s).value), UpdateAt(c, s.pc).value)
    && exists t0, t1, i, a, b :: FailsAt(p, s, s', UpdateAt(c, s.pc).value, t0, t1, i, a, b)
  }

  ghost predicate Step(c: Config, p: Slots.Placement, s: State, s': State) {
    Next(c, p, s, s') || QuietCrash(s, s') || CrashInUpdate(c, p, s, s')
  }

  ghost predicate Init(c: Config, s: State) {
    && Slots.Clean(s.slots) && Picked(s).Some?
    && Task2.Init(c, Read(s, Slots.View(Picked(s).value)))
  }

  ghost predicate IsRun(c: Config, p: Slots.Placement, run: seq<State>) {
    && |run| >= 1
    && Init(c, run[0])
    && (forall i :: 0 <= i < |run| - 1 ==> Step(c, p, run[i], run[i + 1]))
  }

  // ----- the simulation

  /** The pair is flushed and reads as the superblock of `a`; everything else is the same. */
  ghost predicate Refines(s: State, a: Task2.State) {
    && Slots.Clean(s.slots) && Picked(s).Some? && Slots.View(Picked(s).value) == Seen(a.sb)
    && a.pm == s.pm && a.ram == s.ram && a.pc == s.pc
  }

  /** Apart from updates, a step depends on the superblock only through what is seen of it. */
  lemma NextSeesOnly(c: Config, a: Task2.State, b: Task2.State, sb: Superblock)
    requires UpdateAt(c, a.pc).None? && Task2.Next(c, a, b) && b.sb == a.sb && Seen(a.sb) == Seen(sb)
    ensures Task2.Next(c, a.(sb := sb), b.(sb := sb))
  {
    hide Pow2, Task2.Quicksorted, Task2.PairsMerged, Task2.SplitFrom, Task2.Restrict, Task2.Present, ShouldErase;
    match a.pc
    case Stabilize(t, next) =>
      if k :| k in a.pm && ShouldErase(k, LevelArg(t)) && b == a.(pm := a.pm - {k}) {
        assert b.(sb := sb) == a.(sb := sb).(pm := a.pm - {k});
      }
    case Backup(t, done) =>
      if k :| k in a.ram && k !in done && Task2.CreatesAny(a, b, k, Task2.BackupWrite(t, done, k)) {
        assert Task2.CreatesAny(a.(sb := sb), b.(sb := sb), k, Task2.BackupWrite(t, done, k));
      }
    case _ =>
  }

  /** An update changes nothing but the superblock, to what it is to establish. */
  lemma UpdateSets(c: Config, a: Task2.State, b: Task2.State, i: Slots.Image, sb: Superblock)
    requires UpdateAt(c, a.pc).Some? && Task2.Next(c, a, b) && Seen(a.sb) == Seen(sb)
    ensures Slots.Complete(UpdateAt(c, a.pc).value)
    ensures exists sb' ::
      Task2.Next(c, a.(sb := sb), b.(sb := sb')) && Seen(sb') == Slots.After(i, UpdateAt(c, a.pc).value)
    ensures b.pm == a.pm && b.ram == a.ram
  {
    hide Pow2;
    var sb' := match a.pc
      case SetChunk => sb.(stage := SortChunks, index := 0)
      case SetMerge(p) => Superblock(MergeChunks, 0, p)
      case EnterMerge(p) => Superblock(MergeChunks, 0, p)
      case SetSplit => sb.(stage := SplitResult, index := 0)
      case SetOut(i) => sb.(stage := SplitResult, index := i)
      case _ => sb.(stage := Idle);
    assert Task2.Next(c, a.(sb := sb), b.(sb := sb'));
  }

  lemma UpdateEnabled(c: Config, a: Task2.State) returns (b: Task2.State)
    requires UpdateAt(c, a.pc).Some?
    ensures Task2.Next(c, a, b)
  {
    hide Pow2;
    match a.pc
    case SetChunk => b := a.(sb := a.sb.(stage := SortChunks, index := 0), pc := Task2.SortRam);
    case SetMerge(p) =>
      b := a.(sb := Superblock(MergeChunks, 0, p),
              pc := Task2.Stabilize(p, if p == 1 then Task2.EnterMerge(1) else Task2.MergeRam(p)));
    case EnterMerge(p) => b := a.(sb := Superblock(MergeChunks, 0, p), pc := Task2.MergeRam(p));
    case SetSplit =>
      b := a.(sb := a.sb.(stage := SplitResult, index := 0), pc := Task2.Stabilize(c.phases + 1, Task2.SplitRam(0)));
    case SetOut(i) => b := a.(sb := a.sb.(stage := SplitResult, index := i), pc := Task2.CreateOut(i));
    case SetIdle => b := a.(sb := a.sb.(stage := Idle), pc := Task2.Stabilize(c.phases + 2, Task2.Done));
    case _ => assert false;
  }

  /** An interrupted update is read as not begun or as done. */
  lemma UpdateFails(p: Slots.Placement, s: State, s': State, u: Slots.Update, t0: nat, t1: nat, i: nat,
                    a: Slots.Image, b: Slots.Image)
    requires p.Covered() && Slots.Clean(s.slots) && Slots.Complete(u) && Picked(s).Some?
    requires Slots.SecondCurrent(s.slots, Slots.View(Picked(s).value), u) && FailsAt(p, s, s', u, t0, t1, i, a, b)
    ensures Slots.Clean(s'.slots) && Picked(s').Some?
    ensures Slots.View(Picked(s').value) in {Slots.View(Picked(s).value), Slots.After(s.slots[0].Now(), u)}
  {
    hide Slots.Covers, Slots.History, Slots.After, Slots.View;
    Slots.SameAfter(s.slots[0].Now(), s.slots[1].Now(), u);
    Slots.UpdateReads(p, s.slots, u, t0, t1, i, a, b);
  }

  lemma NextRefines(c: Config, p: Slots.Placement, s: State, s': State, a: Task2.State) returns (b: Task2.State)
    requires p.Covered() && Refines(s, a) && Next(c, p, s, s')
    ensures Task2.Next(c, a, b) && Refines(s', b)
  {
    hide Task2.Next, Slots.History, Slots.View, Slots.After, Slots.Covers;
    var now := Slots.View(Picked(s).value);
    assert Seen(now) == now by { SeenTwice(a.sb); }
    match UpdateAt(c, s.pc)
    case None =>
      b := Read(s', a.sb);
      NextSeesOnly(c, Read(s, now), Read(s', now), a.sb);
    case Some(u) =>
      var t0, t1 :| s'.slots == Slots.History(s.slots, u, t0, t1, p.addr, p.intended)[11];
      var sb :| Task2.Next(c, Read(s, now), Read(s', sb));
      UpdateSets(c, Read(s, now), Read(s', sb), s.slots[0].Now(), a.sb);
      Slots.UpdateEnds(p, s.slots, u, t0, t1);
      Slots.SameAfter(s.slots[0].Now(), s.slots[1].Now(), u);
      var sb' :| Task2.Next(c, Read(s, now).(sb := a.sb), Read(s', sb).(sb := sb'))
        && Seen(sb') == Slots.After(s.slots[0].Now(), u);
      b := Read(s', sb');
  }

  lemma SeenTwice(sb: Superblock)
    ensures Seen(Seen(sb)) == Seen(sb)
  {}

  lemma FailureRefines(c: Config, p: Slots.Placement, s: State, s': State, a: Task2.State)
    returns (b: Task2.State, d: Task2.State)
    requires p.Covered() && Refines(s, a) && CrashInUpdate(c, p, s, s')
    ensures Task2.Step(c, a, b) && (d == b || Task2.Step(c, b, d)) && Refines(s', d)
  {
    hide Task2.Next, Slots.History, Slots.View, Slots.After, Slots.Covers, FailsAt, Slots.SecondCurrent;
    var u := UpdateAt(c, s.pc).value;
    var t0, t1, i, x, y :| FailsAt(p, s, s', u, t0, t1, i, x, y);
    var e := UpdateEnabled(c, a);
    UpdateSets(c, a, e, s.slots[0].Now(), a.sb);
    UpdateFails(p, s, s', u, t0, t1, i, x, y);
    FailedState(p, s, s', u, t0, t1, i, x, y);
    if Slots.View(Picked(s').value) == Seen(a.sb) {
      b := a.(ram := map[], pc := Task2.Off);
      d := b;
    } else {
      var sb' :| Task2.Next(c, a.(sb := a.sb), e.(sb := sb')) && Seen(sb') == Slots.After(s.slots[0].Now(), u);
      assert a.(sb := a.sb) == a;
      b := e.(sb := sb');
      d := b.(ram := map[], pc := Task2.Off);
    }
  }

  lemma FailedState(p: Slots.Placement, s: State, s': State, u: Slots.Update, t0: nat, t1: nat, i: nat,
                    a: Slots.Image, b: Slots.Image)
    requires FailsAt(p, s, s', u, t0, t1, i, a, b)
    ensures s'.pm == s.pm && s'.ram == map[] && s'.pc == Task2.Off
  {
    hide Slots.History;
  }

  /**
   * Every run over the slot pair, in which each interrupted update began with slot 1 valid and current,
   * is a run of task 2 with an atomic superblock: same pool, same RAM, same position, same reading.
   */
  lemma {:induction false} RunRefines(c: Config, p: Slots.Placement, run: seq<State>) returns (atomic: seq<Task2.State>)
    requires p.Covered() && IsRun(c, p, run)
    ensures Task2.IsRun(c, atomic) && Refines(run[|run| - 1], atomic[|atomic| - 1])
    decreases |run|
  {
    if |run| == 1 {
      atomic := [Read(run[0], Slots.View(Picked(run[0]).value))];
      assert Refines(run[0], atomic[0]) by { SeenTwice(atomic[0].sb); InitRefines(c, run[0]); }
    } else {
      hide Step, Init, Refines, Task2.IsRun;
      var n := |run| - 1;
      atomic := RunRefines(c, p, run[..n]);
      assert |atomic| >= 1 by { Task2.RunNonEmpty(c, atomic); }
      assert Step(c, p, run[n - 1], run[n - 1 + 1]);
      atomic := StepRefines(c, p, run[n - 1], run[n], atomic);
    }
  }

  lemma InitRefines(c: Config, s: State)
    requires Init(c, s)
    ensures Refines(s, Read(s, Slots.View(Picked(s).value)))
  {
    SeenTwice(Superblock(Picked(s).value.stage, Picked(s).value.index, Picked(s).value.phase));
  }

  lemma StepRefines(c: Config, p: Slots.Placement, s: State, s': State, atomic: seq<Task2.State>)
    returns (longer: seq<Task2.State>)
    requires p.Covered() && Task2.IsRun(c, atomic) && Refines(s, atomic[|atomic| - 1]) && Step(c, p, s, s')
    ensures Task2.IsRun(c, longer) && Refines(s', longer[|longer| - 1])
  {
    hide Next, CrashInUpdate, Task2.Next, Task2.IsRun;
    assert |atomic| >= 1 by { Task2.RunNonEmpty(c, atomic); }
    var a := atomic[|atomic| - 1];
    var b, d;
    if Next(c, p, s, s') {
      b := NextRefines(c, p, s, s', a);
      d := b;
    } else if CrashInUpdate(c, p, s, s') {
      b, d := FailureRefines(c, p, s, s', a);
    } else {
      b := a.(ram := map[], pc := Task2.Off);
      d := b;
    }
    Task2.Extend(c, atomic, b);
    longer := atomic + [b];
    if d != b {
      Task2.Extend(c, longer, d);
      longer := longer + [d];
    }
  }

  /** So the safety of task 2 holds over the slots as well. */
  lemma SlotCrashSafety(c: Config, p: Slots.Placement, run: seq<State>)
    requires c.Valid() && p.Covered() && IsRun(c, p, run)
    ensures var s := run[|run| - 1];
      && Picked(s).Some?
      && (Picked(s).value.stage == Idle ==> (Has(c, s.pm, 0) && Only(c, s.pm, {0})) || SortedOutput(c, s.pm))
      && (s.pc.Done? ==> SortedOutput(c, s.pm) && s.pm.Keys == TierKeys(c, c.phases + 2))
      && (s.pc.Threw? ==> SortedOutput(c, s.pm))
  {
    hide IsRun, Task2.IsRun, SortedOutput, Has, Only, TierKeys;
    var atomic := RunRefines(c, p, run);
    assert |atomic| >= 1 by { Task2.RunNonEmpty(c, atomic); }
    Task2.CrashSafety(c, atomic);
  }
}
