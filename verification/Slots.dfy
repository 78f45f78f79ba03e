/**
 * The two superblock slots, stored field by field through a cache.  A crash may find in each field
 * any value stored since the field was last flushed.
 */
module Slots {
  import opened Pool

  /** What the processor sees, and what the medium may hold when power fails now. */
  datatype Cell<T(==)> = Cell(now: T, may: set<T>) {
    predicate Clean() { may == {now} }
    function Store(v: T): (r: Cell<T>) { Cell(v, may + {v}) }
    function Flush(covered: bool): (r: Cell<T>) { if covered then Cell(now, {now}) else this }
  }

  datatype Slot = Slot(valid: Cell<bool>, timestamp: Cell<nat>, stage: Cell<Stage>, index: Cell<nat>, phase: Cell<nat>)
  {
    predicate Clean() { valid.Clean() && timestamp.Clean() && stage.Clean() && index.Clean() && phase.Clean() }
    function Now(): (i: Image) { Image(valid.now, timestamp.now, stage.now, index.now, phase.now) }
    predicate MayBe(i: Image) {
      && i.valid in valid.may && i.timestamp in timestamp.may && i.stage in stage.may
      && i.index in index.may && i.phase in phase.may
    }
  }

  /** A slot as found in persistent memory. */
  datatype Image = Image(valid: bool, timestamp: nat, stage: Stage, index: nat, phase: nat)

  datatype Option<+T> = None | Some(value: T)

  /** Arguments of `update_superblock`; an omitted index or phase keeps the slot's own value. */
  datatype Update = Update(stage: Stage, index: Option<nat>, phase: Option<nat>)

  type Slots = s: seq<Slot> | |s| == 2 witness
    var s := Slot(Cell(true, {true}), Cell(0, {0}), Cell(Idle, {Idle}), Cell(0, {0}), Cell(0, {0})); [s, s]

  const SLOT_SIZE := 40
  const LINE := 64

  /** Flushing the lines of [from, from + 40) also reaches the line of address `a`. */
  predicate Touched(a: nat, from: nat) {
    from / LINE <= a / LINE <= (from + SLOT_SIZE - 1) / LINE
  }

  /** `pmem_persist(from, sizeof(*sb))` as seen by the slot at `base`. */
  function FlushSlot(s: Slot, base: nat, from: nat): (r: Slot) {
    Slot(s.valid.Flush(Touched(base, from)), s.timestamp.Flush(Touched(base + 8, from)),
         s.stage.Flush(Touched(base + 16, from)), s.index.Flush(Touched(base + 24, from)),
         s.phase.Flush(Touched(base + 32, from)))
  }

  function Persist(s: Slots, addr: nat, from: nat): (r: Slots) {
    [FlushSlot(s[0], addr, from), FlushSlot(s[1], addr + SLOT_SIZE, from)]
  }

  function Invalidate(s: Slot): (r: Slot) { s.(valid := s.valid.Store(false)) }

  function Validate(s: Slot): (r: Slot) { s.(valid := s.valid.Store(true)) }

  function Fill(s: Slot, u: Update, time: nat): (r: Slot) {
    Slot(s.valid, s.timestamp.Store(time), s.stage.Store(u.stage),
         if u.index.Some? then s.index.Store(u.index.value) else s.index,
         if u.phase.Some? then s.phase.Store(u.phase.value) else s.phase)
  }

  /** Only some of the four fields stored so far. */
  function FillSome(s: Slot, u: Update, time: nat, b0: bool, b1: bool, b2: bool, b3: bool): (r: Slot) {
    var f := Fill(s, u, time);
    Slot(s.valid, if b0 then f.timestamp else s.timestamp, if b1 then f.stage else s.stage,
         if b2 then f.index else s.index, if b3 then f.phase else s.phase)
  }

  /** A crash between the field stores finds nothing that a crash after them could not find. */
  lemma PartialFillIsCovered(s: Slot, u: Update, time: nat, b0: bool, b1: bool, b2: bool, b3: bool, i: Image)
    requires FillSome(s, u, time, b0, b1, b2, b3).MayBe(i)
    ensures Fill(s, u, time).MayBe(i)
  {}

  /** The states of the pair while slot `k` is rewritten, each persist flushing from `from`. */
  function SlotHistory(s: Slots, k: nat, u: Update, time: nat, addr: nat, from: nat): (h: seq<Slots>)
    requires k < 2
    ensures |h| == 6
  {
    var s1: Slots := s[k := Invalidate(s[k])];
    var s2 := Persist(s1, addr, from);
    var s3: Slots := s2[k := Fill(s2[k], u, time)];
    var s4 := Persist(s3, addr, from);
    var s5: Slots := s4[k := Validate(s4[k])];
    [s1, s2, s3, s4, s5, Persist(s5, addr, from)]
  }

  /** The whole update; `intended` persists slot k itself, the code as written always persists slot 0. */
  function History(s: Slots, u: Update, t0: nat, t1: nat, addr: nat, intended: bool): (h: seq<Slots>)
    ensures |h| == 12
  {
    var h0 := SlotHistory(s, 0, u, t0, addr, addr);
    h0 + SlotHistory(h0[5], 1, u, t1, addr, if intended then addr + SLOT_SIZE else addr)
  }

  // ----- reading back

  /** The slot `get_updated_superblock` returns. */
  function Pick(a: Image, b: Image): (r: Option<Image>) {
    if a.valid then (if b.valid && b.timestamp > a.timestamp then Some(b) else Some(a))
    else if b.valid then Some(b) else None
  }

  method GetUpdatedSuperblock(sb: seq<Image>) returns (r: Option<Image>)
    requires |sb| == 2
    ensures r == Pick(sb[0], sb[1])
    ensures r.None? <==> forall k :: 0 <= k < 2 ==> !sb[k].valid
  {
    r := None;
    for k := 0 to 2
      invariant k == 0 ==> r.None?
      invariant k == 1 ==> r == if sb[0].valid then Some(sb[0]) else None
      invariant k == 2 ==> r == Pick(sb[0], sb[1])
    {
      if sb[k].valid && (r.None? || sb[k].timestamp > r.value.timestamp) {
        r := Some(sb[k]);
      }
    }
    assert !sb[0].valid && !sb[1].valid ==> forall k :: 0 <= k < 2 ==> !sb[k].valid;
  }

  /** The fields a reader uses in each stage. */
  function View(i: Image): (v: Superblock) {
    Superblock(i.stage, if i.stage == Idle then 0 else i.index, if i.stage == MergeChunks then i.phase else 0)
  }

  /** Every crash in this state is read back as one of the two values. */
  ghost predicate ReadsAs(s: Slots, old_: Superblock, new_: Superblock) {
    forall a, b :: s[0].MayBe(a) && s[1].MayBe(b) ==>
      Pick(a, b).Some? && View(Pick(a, b).value) in {old_, new_}
  }

  /** What the update is to establish, starting from slot image `i`. */
  function After(i: Image, u: Update): (v: Superblock) {
    View(Image(true, 0, u.stage, if u.index.Some? then u.index.value else i.index,
               if u.phase.Some? then u.phase.value else i.phase))
  }

  /** The update gives every field its stage uses. */
  predicate Complete(u: Update) {
    (u.stage != Idle ==> u.index.Some?) && (u.stage == MergeChunks ==> u.phase.Some?)
  }

  ghost predicate Atomic(s: Slots, u: Update, t0: nat, t1: nat, addr: nat, intended: bool, old_: Superblock) {
    forall i :: 0 <= i < 12 ==> ReadsAs(History(s, u, t0, t1, addr, intended)[i], old_, After(s[0].Now(), u))
  }

  ghost predicate Clean(s: Slots) { s[0].Clean() && s[1].Clean() }

  function FlushAll(s: Slot): (r: Slot) {
    Slot(s.valid.Flush(true), s.timestamp.Flush(true), s.stage.Flush(true), s.index.Flush(true), s.phase.Flush(true))
  }

  /** The persist reaches all of slot `k`. */
  predicate Covers(addr: nat, k: nat, from: nat) {
    forall j :: 0 <= j < 5 ==> Touched(addr + SLOT_SIZE * k + 8 * j, from)
  }

  lemma CoveringPersist(s: Slots, k: nat, addr: nat, from: nat)
    requires k < 2 && s[1 - k].Clean() && Covers(addr, k, from)
    ensures Persist(s, addr, from) == s[k := FlushAll(s[k])]
  {
    hide Touched;
    forall j | 0 <= j < 5 ensures Touched(addr + SLOT_SIZE * k + 8 * j, from) {}
    assert Touched(addr + SLOT_SIZE * k + 8 * 0, from) && Touched(addr + SLOT_SIZE * k + 8 * 1, from)
      && Touched(addr + SLOT_SIZE * k + 8 * 2, from) && Touched(addr + SLOT_SIZE * k + 8 * 3, from)
      && Touched(addr + SLOT_SIZE * k + 8 * 4, from);
  }

  lemma CleanImage(s: Slot, i: Image)
    requires s.Clean() && s.MayBe(i)
    ensures i == s.Now()
  {}

  /** A slot rewritten by an update and fully flushed. */
  function Rewritten(s: Slot, u: Update, time: nat): (r: Slot) {
    FlushAll(Validate(FlushAll(Fill(FlushAll(Invalidate(s)), u, time))))
  }

  lemma RewrittenIs(s: Slot, u: Update, time: nat)
    ensures var r := Rewritten(s, u, time);
      && r.Clean() && r.Now().valid && r.Now().timestamp == time && View(r.Now()) == After(s.Now(), u)
      && r.Now().stage == u.stage
      && r.Now().index == (if u.index.Some? then u.index.value else s.Now().index)
      && r.Now().phase == (if u.phase.Some? then u.phase.value else s.Now().phase)
  {}

  /** The six states of one slot when every persist covers it. */
  lemma CoveredHistory(s: Slots, k: nat, u: Update, time: nat, addr: nat, from: nat)
    requires k < 2 && Clean(s) && Covers(addr, k, from)
    ensures var h := SlotHistory(s, k, u, time, addr, from);
      && h[0] == s[k := Invalidate(s[k])]
      && h[1] == s[k := FlushAll(Invalidate(s[k]))]
      && h[2] == s[k := Fill(FlushAll(Invalidate(s[k])), u, time)]
      && h[3] == s[k := FlushAll(Fill(FlushAll(Invalidate(s[k])), u, time))]
      && h[4] == s[k := Validate(FlushAll(Fill(FlushAll(Invalidate(s[k])), u, time)))]
      && h[5] == s[k := Rewritten(s[k], u, time)]
  {
    hide Covers, FlushSlot, FlushAll, Invalidate, Validate, Fill, Persist;
    var s1: Slots := s[k := Invalidate(s[k])];
    CoveringPersist(s1, k, addr, from);
    var s2 := Persist(s1, addr, from);
    var s3: Slots := s2[k := Fill(s2[k], u, time)];
    CoveringPersist(s3, k, addr, from);
    var s4 := Persist(s3, addr, from);
    var s5: Slots := s4[k := Validate(s4[k])];
    CoveringPersist(s5, k, addr, from);
  }

  /** While a slot is invalid, half filled or not, the other slot alone is read. */
  lemma WhileInvalid(s: Slot, u: Update, time: nat, i: Image)
    requires var z := FlushAll(Invalidate(s));
      z.MayBe(i) || Fill(z, u, time).MayBe(i) || FlushAll(Fill(z, u, time)).MayBe(i)
    ensures !i.valid
  {}

  /** Storing the valid flag: the slot reads as before, or as invalid. */
  lemma WhileInvalidating(s: Slot, i: Image)
    requires s.Clean() && Invalidate(s).MayBe(i)
    ensures !i.valid || i == s.Now()
  {}

  lemma WhileValidating(s: Slot, u: Update, time: nat, i: Image)
    requires Validate(FlushAll(Fill(FlushAll(Invalidate(s)), u, time))).MayBe(i)
    ensures !i.valid || i == Rewritten(s, u, time).Now()
  {}

  /** Slot `k` reads, in each of its six states, as unchanged, as invalid, or as rewritten. */
  lemma SlotReads(s: Slots, k: nat, u: Update, time: nat, addr: nat, from: nat, n: nat, i: Image)
    requires k < 2 && Clean(s) && Covers(addr, k, from) && n < 6
    requires SlotHistory(s, k, u, time, addr, from)[n][k].MayBe(i)
    ensures SlotHistory(s, k, u, time, addr, from)[n][1 - k] == s[1 - k]
    ensures n == 0 ==> !i.valid || i == s[k].Now()
    ensures 1 <= n <= 3 ==> !i.valid
    ensures n == 4 ==> !i.valid || i == Rewritten(s[k], u, time).Now()
    ensures n == 5 ==> i == Rewritten(s[k], u, time).Now()
  {
    hide Covers, SlotHistory, FlushAll, Invalidate, Validate, Fill, Rewritten, After, View;
    CoveredHistory(s, k, u, time, addr, from);
    if n == 0 { WhileInvalidating(s[k], i); }
    else if n <= 3 { WhileInvalid(s[k], u, time, i); }
    else if n == 4 { WhileValidating(s[k], u, time, i); }
    else { RewrittenIs(s[k], u, time); CleanImage(Rewritten(s[k], u, time), i); }
  }

  /** The second slot holds what is currently read (or already what is about to be written). */
  ghost predicate SecondCurrent(s: Slots, old_: Superblock, u: Update) {
    s[1].Now().valid && View(s[1].Now()) in {old_, After(s[0].Now(), u)}
  }

  lemma FirstHalf(s: Slots, u: Update, t0: nat, addr: nat, old_: Superblock, n: nat)
    requires Clean(s) && Covers(addr, 0, addr) && n < 6
    requires Pick(s[0].Now(), s[1].Now()).Some? && View(Pick(s[0].Now(), s[1].Now()).value) == old_
    requires SecondCurrent(s, old_, u)
    ensures ReadsAs(SlotHistory(s, 0, u, t0, addr, addr)[n], old_, After(s[0].Now(), u))
  {
    hide Covers, SlotHistory, Rewritten, After, View;
    var st := SlotHistory(s, 0, u, t0, addr, addr)[n];
    RewrittenIs(s[0], u, t0);
    forall a, b | st[0].MayBe(a) && st[1].MayBe(b)
      ensures Pick(a, b).Some? && View(Pick(a, b).value) in {old_, After(s[0].Now(), u)}
    {
      SlotReads(s, 0, u, t0, addr, addr, n, a);
      CleanImage(s[1], b);
    }
  }

  /**
   * Once the first slot is rewritten and valid, rewriting the second shows nothing else to a reader, if
   * its own result is as good or its timestamp is not the larger one.
   */
  lemma SecondHalf(s: Slots, u: Update, t1: nat, addr: nat, from: nat, old_: Superblock, new_: Superblock, n: nat)
    requires Clean(s) && Covers(addr, 1, from) && n < 6
    requires s[0].Now().valid && View(s[0].Now()) == new_
    requires t1 <= s[0].Now().timestamp || After(s[1].Now(), u) in {old_, new_}
    requires s[1].Now().valid ==> View(s[1].Now()) in {old_, new_}
    ensures ReadsAs(SlotHistory(s, 1, u, t1, addr, from)[n], old_, new_)
  {
    hide Covers, SlotHistory, Rewritten, After, View;
    var st := SlotHistory(s, 1, u, t1, addr, from)[n];
    RewrittenIs(s[1], u, t1);
    forall a, b | st[0].MayBe(a) && st[1].MayBe(b)
      ensures Pick(a, b).Some? && View(Pick(a, b).value) in {old_, new_}
    {
      SlotReads(s, 1, u, t1, addr, from, n, b);
      CleanImage(s[0], a);
    }
  }

  /** A complete update, or one of slots that agree, makes the same of both slots. */
  lemma SameAfter(i: Image, j: Image, u: Update)
    requires Complete(u) || (i.index == j.index && i.phase == j.phase)
    ensures After(i, u) == After(j, u)
  {}

  /** What the update makes of the second slot is old or new, or is not what a reader picks. */
  ghost predicate SecondHarmless(s: Slots, u: Update, t0: nat, t1: nat, old_: Superblock) {
    t1 <= t0 || After(s[1].Now(), u) in {old_, After(s[0].Now(), u)}
  }

  /**
   * With each slot persisted whole, for any update and whatever the clock says: an update started from
   * a flushed pair is read back as all-old or all-new at every crash point if and only if the second
   * slot is valid and current when the update starts, and harmless when it ends.
   */
  lemma UpdateAtomicIff(s: Slots, u: Update, t0: nat, t1: nat, addr: nat, intended: bool, old_: Superblock)
    requires Clean(s)
    requires Covers(addr, 0, addr) && Covers(addr, 1, if intended then addr + SLOT_SIZE else addr)
    requires Pick(s[0].Now(), s[1].Now()).Some? && View(Pick(s[0].Now(), s[1].Now()).value) == old_
    ensures Atomic(s, u, t0, t1, addr, intended, old_)
            <==> SecondCurrent(s, old_, u) && SecondHarmless(s, u, t0, t1, old_)
    ensures History(s, u, t0, t1, addr, intended)[11] == [Rewritten(s[0], u, t0), Rewritten(s[1], u, t1)]
  {
    hide Covers, SlotHistory, Rewritten, After, View, ReadsAs, FlushAll;
    var from := if intended then addr + SLOT_SIZE else addr;
    var h := History(s, u, t0, t1, addr, intended);
    var new_ := After(s[0].Now(), u);
    CoveredHistory(s, 0, u, t0, addr, addr);
    RewrittenIs(s[0], u, t0);
    var mid := SlotHistory(s, 0, u, t0, addr, addr)[5];
    CoveredHistory(mid, 1, u, t1, addr, from);
    RewrittenIs(s[1], u, t1);
    if !SecondCurrent(s, old_, u) {
      NotCurrent(s, u, t0, addr, old_);
      assert !ReadsAs(h[1], old_, new_);
    } else if !SecondHarmless(s, u, t0, t1, old_) {
      NotHarmless(s, u, t0, t1, h[11], old_);
      assert !ReadsAs(h[11], old_, new_);
    } else {
      forall i | 0 <= i < 12 ensures ReadsAs(h[i], old_, new_) {
        if i < 6 { FirstHalf(s, u, t0, addr, old_, i); } else { SecondHalf(mid, u, t1, addr, from, old_, new_, i - 6); }
      }
    }
  }

  lemma NotHarmless(s: Slots, u: Update, t0: nat, t1: nat, last: Slots, old_: Superblock)
    requires last == [Rewritten(s[0], u, t0), Rewritten(s[1], u, t1)] && !SecondHarmless(s, u, t0, t1, old_)
    ensures !ReadsAs(last, old_, After(s[0].Now(), u))
  {
    hide After, View, Rewritten;
    RewrittenIs(s[0], u, t0);
    RewrittenIs(s[1], u, t1);
    var a, b := last[0].Now(), last[1].Now();
    assert last[0].MayBe(a) && last[1].MayBe(b) && Pick(a, b) == Some(b);
  }

  /** If the second slot is not current, a crash with the first one invalid shows it. */
  lemma NotCurrent(s: Slots, u: Update, t0: nat, addr: nat, old_: Superblock)
    requires Clean(s) && Covers(addr, 0, addr) && !SecondCurrent(s, old_, u)
    ensures !ReadsAs(SlotHistory(s, 0, u, t0, addr, addr)[1], old_, After(s[0].Now(), u))
  {
    hide Covers, SlotHistory, After, View, Fill, Rewritten;
    CoveredHistory(s, 0, u, t0, addr, addr);
    var st := SlotHistory(s, 0, u, t0, addr, addr)[1];
    var a, b := st[0].Now(), s[1].Now();
    assert st[0].MayBe(a) && st[1].MayBe(b);
    assert !a.valid;
  }

  /** Where the pair lies, and whether each slot is persisted itself (`intended`) or slot 0 instead. */
  datatype Placement = Placement(addr: nat, intended: bool) {
    function Second(): (from: nat) { if intended then addr + SLOT_SIZE else addr }
    predicate Covered() { Covers(addr, 1, Second()) }
  }

  /** An update that runs to its end leaves both slots flushed, valid and as it was to make them. */
  lemma UpdateEnds(p: Placement, s: Slots, u: Update, t0: nat, t1: nat)
    requires p.Covered() && Clean(s)
    ensures var h := History(s, u, t0, t1, p.addr, p.intended)[11];
      && Clean(h) && Pick(h[0].Now(), h[1].Now()).Some?
      && View(Pick(h[0].Now(), h[1].Now()).value) in {After(s[0].Now(), u), After(s[1].Now(), u)}
  {
    hide Covers, SlotHistory, After, View, Rewritten;
    OwnPersistCovers(p.addr, 0);
    CoveredHistory(s, 0, u, t0, p.addr, p.addr);
    RewrittenIs(s[0], u, t0);
    CoveredHistory(SlotHistory(s, 0, u, t0, p.addr, p.addr)[5], 1, u, t1, p.addr, p.Second());
    RewrittenIs(s[1], u, t1);
  }

  /**
   * Whatever the update and the clocks: if slot 1 is valid when it begins, a crash at any point is read
   * as one of four superblocks, those read from the pair and from slot 1 before, and what the update
   * makes of each slot.
   */
  lemma UpdateReads(p: Placement, s: Slots, u: Update, t0: nat, t1: nat, i: nat, a: Image, b: Image)
    requires p.Covered() && Clean(s) && s[1].Now().valid && i < 12
    requires History(s, u, t0, t1, p.addr, p.intended)[i][0].MayBe(a)
    requires History(s, u, t0, t1, p.addr, p.intended)[i][1].MayBe(b)
    ensures Pick(s[0].Now(), s[1].Now()).Some? && Pick(a, b).Some?
    ensures View(Pick(a, b).value) in {View(Pick(s[0].Now(), s[1].Now()).value), View(s[1].Now()),
                                       After(s[0].Now(), u), After(s[1].Now(), u)}
  {
    hide Covers, SlotHistory, After, View, Rewritten;
    OwnPersistCovers(p.addr, 0);
    RewrittenIs(s[0], u, t0);
    RewrittenIs(s[1], u, t1);
    if i < 6 {
      SlotReads(s, 0, u, t0, p.addr, p.addr, i, a);
      CleanImage(s[1], b);
    } else {
      CoveredHistory(s, 0, u, t0, p.addr, p.addr);
      var mid := SlotHistory(s, 0, u, t0, p.addr, p.addr)[5];
      SlotReads(mid, 1, u, t1, p.addr, p.Second(), i - 6, b);
      CleanImage(mid[0], a);
    }
  }

  // ----- which persists cover which slot

  lemma OwnPersistCovers(addr: nat, k: nat)
    requires k < 2
    ensures Covers(addr, k, addr + SLOT_SIZE * k)
  {}

  /** Persisting slot 0 reaches all of slot 1 only for some placements of the pair in its cache lines. */
  lemma FirstPersistCoversSecond(addr: nat)
    requires addr % 8 == 0
    ensures Covers(addr, 1, addr) <==> Touched(addr + SLOT_SIZE + 32, addr)
    ensures Covers(addr, 1, addr) <==> 24 < addr % LINE <= 48
  {
    hide Touched, Reached;
    var r := addr % LINE;
    assert r % 8 == 0 by { OffsetAligned(addr); }
    forall n: nat ensures Touched(addr + n, addr) <==> Reached(r, n) {
      TouchedAhead(addr, n);
    }
    ReachedAll(r);
    CoversReached(addr);
  }

  lemma CoversReached(addr: nat)
    requires forall n: nat :: Touched(addr + n, addr) <==> Reached(addr % LINE, n)
    ensures Covers(addr, 1, addr) <==> forall j :: 0 <= j < 5 ==> Reached(addr % LINE, 40 + 8 * j)
  {
    hide Touched, Reached;
    var r := addr % LINE;
    forall j | 0 <= j < 5 ensures Touched(addr + SLOT_SIZE * 1 + 8 * j, addr) <==> Reached(r, 40 + 8 * j) {
      assert addr + SLOT_SIZE * 1 + 8 * j == addr + (40 + 8 * j);
    }
    if forall j :: 0 <= j < 5 ==> Reached(r, 40 + 8 * j) {
      forall j | 0 <= j < 5 ensures Touched(addr + SLOT_SIZE * 1 + 8 * j, addr) { assert Reached(r, 40 + 8 * j); }
    }
  }

  lemma OffsetAligned(addr: nat)
    requires addr % 8 == 0
    ensures addr % LINE % 8 == 0
  {
    assert addr % LINE == addr - 64 * (addr / LINE) == addr - 8 * (8 * (addr / LINE));
  }

  /** From offset `r` in a line, a flush of one slot reaches the byte `n` further on. */
  predicate Reached(r: nat, n: nat) {
    r + n < if r < 25 then 64 else 128
  }

  lemma ReachedAll(r: nat)
    requires r < LINE && r % 8 == 0
    ensures (forall j :: 0 <= j < 5 ==> Reached(r, 40 + 8 * j)) <==> Reached(r, 72)
    ensures Reached(r, 72) <==> 24 < r <= 48
  {
    assert Reached(r, 72) <==> Reached(r, 40 + 8 * 4);
  }

  /** A flush of one slot reaches to the end of the line that its last byte is on. */
  lemma TouchedAhead(addr: nat, n: nat)
    ensures Touched(addr + n, addr) <==> Reached(addr % LINE, n)
  {
    var q, r := addr / LINE, addr % LINE;
    assert addr == LINE * q + r;
    assert (addr + n) / LINE == q + (r + n) / LINE;
    assert (addr + SLOT_SIZE - 1) / LINE == q + (r + 39) / LINE;
  }

  // ----- whole sequences of updates

  datatype Timed = Timed(u: Update, t0: nat, t1: nat)

  /** Both slots are flushed, valid and read alike. */
  ghost predicate Settled(s: Slots) {
    Clean(s) && s[0].Now().valid && s[1].Now().valid && View(s[0].Now()) == View(s[1].Now())
  }

  /** They agree in every field, also in those that their stage does not use. */
  ghost predicate Agreed(s: Slots) {
    && Settled(s)
    && s[0].Now().stage == s[1].Now().stage
    && s[0].Now().index == s[1].Now().index && s[0].Now().phase == s[1].Now().phase
  }

  ghost predicate AtomicAlong(s: Slots, us: seq<Timed>, addr: nat, intended: bool, current: Superblock)
    decreases |us|
  {
    us != [] ==>
      var t := us[0];
      && Atomic(s, t.u, t.t0, t.t1, addr, intended, current)
      && AtomicAlong(History(s, t.u, t.t0, t.t1, addr, intended)[11], us[1..], addr, intended, After(s[0].Now(), t.u))
  }

  ghost predicate AllComplete(us: seq<Timed>) { forall i :: 0 <= i < |us| ==> Complete(us[i].u) }

  /** Any updates of slots that agree, and complete updates of slots that read alike. */
  ghost predicate Regular(s: Slots, us: seq<Timed>) {
    Agreed(s) || (Settled(s) && AllComplete(us))
  }

  lemma UpdateIsRegular(s: Slots, us: seq<Timed>, addr: nat, intended: bool)
    requires Regular(s, us) && us != [] && Covers(addr, 1, if intended then addr + SLOT_SIZE else addr)
    ensures var t := us[0];
      && Atomic(s, t.u, t.t0, t.t1, addr, intended, View(s[0].Now()))
      && Regular(History(s, t.u, t.t0, t.t1, addr, intended)[11], us[1..])
      && View(History(s, t.u, t.t0, t.t1, addr, intended)[11][0].Now()) == After(s[0].Now(), t.u)
  {
    hide Covers, History, After, View, Atomic, Rewritten;
    var t := us[0];
    OwnPersistCovers(addr, 0);
    SameAfter(s[0].Now(), s[1].Now(), t.u);
    UpdateAtomicIff(s, t.u, t.t0, t.t1, addr, intended, View(s[0].Now()));
    RewrittenIs(s[0], t.u, t.t0);
    RewrittenIs(s[1], t.u, t.t1);
  }

  lemma {:induction false} CoveredIsAtomic(s: Slots, us: seq<Timed>, addr: nat, intended: bool)
    requires Regular(s, us) && Covers(addr, 1, if intended then addr + SLOT_SIZE else addr)
    ensures AtomicAlong(s, us, addr, intended, View(s[0].Now()))
    decreases |us|
  {
    hide Covers, History, After, View, Atomic, Regular;
    if us != [] {
      var t := us[0];
      UpdateIsRegular(s, us, addr, intended);
      CoveredIsAtomic(History(s, t.u, t.t0, t.t1, addr, intended)[11], us[1..], addr, intended);
    }
  }

  /** As the header intends it: any sequence of updates, one crash anywhere, is read as before or after. */
  lemma IntendedIsAtomic(s: Slots, us: seq<Timed>, addr: nat)
    requires Regular(s, us)
    ensures AtomicAlong(s, us, addr, true, View(s[0].Now()))
  {
    OwnPersistCovers(addr, 1);
    CoveredIsAtomic(s, us, addr, true);
  }

  ghost predicate AlwaysAtomic(addr: nat, intended: bool) {
    forall s: Slots, us :: Regular(s, us) ==> AtomicAlong(s, us, addr, intended, View(s[0].Now()))
  }

  /** The slot's own fields may be found as they are now, with phase `p` instead. */
  ghost predicate MayHavePhase(s: Slot, p: nat) {
    && s.valid.now in s.valid.may && s.timestamp.now in s.timestamp.may && s.stage.now in s.stage.may
    && s.index.now in s.index.may && s.phase.now in s.phase.may && p in s.phase.may
  }

  lemma UnflushedPhaseStays(s: Slot, p: nat, u: Update, time: nat, base: nat, from: nat)
    requires MayHavePhase(s, p) && !Touched(base + 32, from)
    ensures MayHavePhase(FlushSlot(s, base, from), p)
    ensures MayHavePhase(Invalidate(s), p) && MayHavePhase(Fill(s, u, time), p) && MayHavePhase(Validate(s), p)
  {
    hide Touched;
  }

  /** Slot 1 through one update as written, when the persist misses its phase field. */
  lemma StalePhase(s: Slots, u: Update, time: nat, addr: nat, p: nat)
    requires MayHavePhase(s[1], p) && !Touched(addr + SLOT_SIZE + 32, addr)
    ensures var r := SlotHistory(s, 1, u, time, addr, addr)[5][1];
      MayHavePhase(r, p) && r.Now().valid && r.stage.now == u.stage
      && (u.index.Some? ==> r.index.now == u.index.value) && (u.phase.Some? ==> r.phase.now == u.phase.value)
  {
    hide Touched, MayHavePhase;
    var base := addr + SLOT_SIZE;
    var s1 := Invalidate(s[1]);
    UnflushedPhaseStays(s[1], p, u, time, base, addr);
    UnflushedPhaseStays(s1, p, u, time, base, addr);
    var s2 := FlushSlot(s1, base, addr);
    UnflushedPhaseStays(s2, p, u, time, base, addr);
    var s3 := Fill(s2, u, time);
    UnflushedPhaseStays(s3, p, u, time, base, addr);
    var s4 := FlushSlot(s3, base, addr);
    UnflushedPhaseStays(s4, p, u, time, base, addr);
    var s5 := Validate(s4);
    UnflushedPhaseStays(s5, p, u, time, base, addr);
  }

  ghost predicate NowIsPossible(s: Slot) { s.MayBe(s.Now()) }

  lemma NowStaysPossible(s: Slot, u: Update, time: nat, base: nat, from: nat)
    requires NowIsPossible(s)
    ensures NowIsPossible(FlushSlot(s, base, from)) && NowIsPossible(Invalidate(s))
    ensures NowIsPossible(Fill(s, u, time)) && NowIsPossible(Validate(s))
  {
    hide Touched;
  }

  /** Rewriting slot 0 leaves a stale phase of slot 1 possible, also while slot 0 is surely invalid. */
  lemma FirstHalfKeepsStale(s: Slots, u: Update, time: nat, addr: nat, p: nat)
    requires NowIsPossible(s[0]) && MayHavePhase(s[1], p) && !Touched(addr + SLOT_SIZE + 32, addr)
    ensures var h := SlotHistory(s, 0, u, time, addr, addr);
      && NowIsPossible(h[1][0]) && !h[1][0].Now().valid
      && MayHavePhase(h[1][1], p) && h[1][1].Now() == s[1].Now()
      && NowIsPossible(h[5][0]) && MayHavePhase(h[5][1], p) && h[5][1].Now() == s[1].Now()
  {
    hide Touched, MayHavePhase, NowIsPossible, FlushSlot, Invalidate, Fill, Validate;
    var base := addr + SLOT_SIZE;
    FlushKeepsNow(s[1], base, addr);
    UnflushedPhaseStays(s[1], p, u, time, base, addr);
    var b1 := FlushSlot(s[1], base, addr);
    FlushKeepsNow(b1, base, addr);
    UnflushedPhaseStays(b1, p, u, time, base, addr);
    var b2 := FlushSlot(b1, base, addr);
    FlushKeepsNow(b2, base, addr);
    UnflushedPhaseStays(b2, p, u, time, base, addr);
    NowStaysPossible(s[0], u, time, addr, addr);
    var a1 := Invalidate(s[0]);
    NowStaysPossible(a1, u, time, addr, addr);
    var a2 := FlushSlot(a1, addr, addr);
    FlushKeepsNow(a1, addr, addr);
    InvalidNow(s[0]);
    NowStaysPossible(a2, u, time, addr, addr);
    var a3 := Fill(a2, u, time);
    NowStaysPossible(a3, u, time, addr, addr);
    var a4 := FlushSlot(a3, addr, addr);
    NowStaysPossible(a4, u, time, addr, addr);
    var a5 := Validate(a4);
    NowStaysPossible(a5, u, time, addr, addr);
  }

  lemma FlushKeepsNow(s: Slot, base: nat, from: nat)
    ensures FlushSlot(s, base, from).Now() == s.Now()
  {
    hide Touched;
  }

  lemma InvalidNow(s: Slot)
    ensures !Invalidate(s).Now().valid
  {}

  lemma SecondHalfKeepsNow(s: Slots, u: Update, time: nat, addr: nat)
    requires NowIsPossible(s[0])
    ensures NowIsPossible(SlotHistory(s, 1, u, time, addr, addr)[5][0])
  {
    hide Touched, NowIsPossible, FlushSlot, Invalidate, Fill, Validate;
    NowStaysPossible(s[0], u, time, addr, addr);
    var a1 := FlushSlot(s[0], addr, addr);
    NowStaysPossible(a1, u, time, addr, addr);
    var a2 := FlushSlot(a1, addr, addr);
    NowStaysPossible(a2, u, time, addr, addr);
  }

  /** A slot pair in merge phase 1, moved to phase 2, then to chunk 2 of phase 2. */
  const PHASE_ONE: Slot :=
    Slot(Cell(true, {true}), Cell(0, {0}), Cell(MergeChunks, {MergeChunks}), Cell(0, {0}), Cell(1, {1}))
  const TO_PHASE_TWO: Update := Update(MergeChunks, Some(0), Some(2))
  const TO_CHUNK_TWO: Update := Update(MergeChunks, Some(2), Some(2))

  /** As written, a missed phase field is read back stale: neither the old nor the new value. */
  lemma MissedFieldTears(addr: nat)
    requires !Touched(addr + SLOT_SIZE + 32, addr)
    ensures !AlwaysAtomic(addr, false)
  {
    hide Touched, SlotHistory, After, View, Persist, FlushSlot, Invalidate, Fill, Validate;
    var s: Slots := [PHASE_ONE, PHASE_ONE];
    var us := [Timed(TO_PHASE_TWO, 0, 0), Timed(TO_CHUNK_TWO, 0, 0)];
    var h := SlotHistory(s, 0, TO_PHASE_TWO, 0, addr, addr);
    FirstHalfKeepsStale(s, TO_PHASE_TWO, 0, addr, 1);
    StalePhase(h[5], TO_PHASE_TWO, 0, addr, 1);
    SecondHalfKeepsNow(h[5], TO_PHASE_TWO, 0, addr);
    var last := SlotHistory(h[5], 1, TO_PHASE_TWO, 0, addr, addr)[5];
    assert last == History(s, TO_PHASE_TWO, 0, 0, addr, false)[11];
    FirstHalfKeepsStale(last, TO_CHUNK_TWO, 0, addr, 1);
    var st := SlotHistory(last, 0, TO_CHUNK_TWO, 0, addr, addr)[1];
    assert st == History(last, TO_CHUNK_TWO, 0, 0, addr, false)[1];
    var a, b := st[0].Now(), st[1].Now().(phase := 1);
    assert st[0].MayBe(a) && st[1].MayBe(b);
    assert Pick(a, b) == Some(b);
    ViewsDiffer(s[0].Now(), last[0].Now(), b);
    var current := After(s[0].Now(), TO_PHASE_TWO);
    assert !ReadsAs(st, current, After(last[0].Now(), TO_CHUNK_TWO));
    assert !Atomic(last, TO_CHUNK_TWO, 0, 0, addr, false, current);
    assert !AtomicAlong(last, us[1..], addr, false, current);
    assert !AtomicAlong(s, us, addr, false, View(s[0].Now()));
    assert Regular(s, us);
  }

  lemma ViewsDiffer(i: Image, j: Image, b: Image)
    requires b.stage == MergeChunks && b.index == 0 && b.phase == 1
    ensures View(b) != After(i, TO_PHASE_TWO) && View(b) != After(j, TO_CHUNK_TWO)
  {}

  /**
   * The code as written, which persists slot 0 three times instead of slot 1, is atomic for every
   * sequence of updates exactly when the pair is placed so that slot 0's cache lines contain slot 1.
   */
  lemma AsWrittenAtomicIff(addr: nat)
    requires addr % 8 == 0
    ensures AlwaysAtomic(addr, false) <==> 24 < addr % LINE <= 48
  {
    hide Touched, Covers, AtomicAlong, Regular;
    FirstPersistCoversSecond(addr);
    if 24 < addr % LINE <= 48 {
      forall s: Slots, us | Regular(s, us)
        ensures AtomicAlong(s, us, addr, false, View(s[0].Now()))
      {
        CoveredIsAtomic(s, us, addr, false);
      }
    } else {
      MissedFieldTears(addr);
    }
  }

  // ----- two crashes

  /** The pair as found after a crash. */
  function Recovered(a: Image, b: Image): (s: Slots)
    ensures s[0].Clean() && s[1].Clean() && s[0].Now() == a && s[1].Now() == b
  {
    [FromImage(a), FromImage(b)]
  }

  function FromImage(i: Image): (s: Slot)
    ensures s.Clean() && s.Now() == i
  {
    Slot(Cell(i.valid, {i.valid}), Cell(i.timestamp, {i.timestamp}), Cell(i.stage, {i.stage}),
         Cell(i.index, {i.index}), Cell(i.phase, {i.phase}))
  }

  /** `s'` is the pair after a crash at some point of an update of `s`. */
  ghost predicate CrashDuring(s: Slots, u: Update, t0: nat, t1: nat, addr: nat, s': Slots) {
    exists i, a, b :: 0 <= i < 12 && History(s, u, t0, t1, addr, true)[i][0].MayBe(a)
      && History(s, u, t0, t1, addr, true)[i][1].MayBe(b) && s' == Recovered(a, b)
  }

  /**
   * A complete update after a crash, from whatever the crash left, survives a second one if and only if
   * the first crash left slot 1 valid and current.
   */
  lemma SecondCrashAtomicIff(a: Image, b: Image, u: Update, t0: nat, t1: nat, addr: nat)
    requires Complete(u) && Pick(a, b).Some?
    ensures var now := View(Pick(a, b).value);
      Atomic(Recovered(a, b), u, t0, t1, addr, true, now) <==> b.valid && View(b) in {now, After(a, u)}
  {
    hide Covers, Atomic, View, After, History;
    OwnPersistCovers(addr, 0);
    OwnPersistCovers(addr, 1);
    SameAfter(a, b, u);
    UpdateAtomicIff(Recovered(a, b), u, t0, t1, addr, true, View(Pick(a, b).value));
  }

  /** A crash while slot 1 is invalid, and the next one while slot 0 is: no valid slot is left. */
  lemma TwoCrashesLoseBoth(s: Slots, u: Update, v: Update, t0: nat, t1: nat, addr: nat) returns (s1: Slots, s2: Slots)
    requires Settled(s)
    ensures CrashDuring(s, u, t0, t1, addr, s1) && Pick(s1[0].Now(), s1[1].Now()).Some?
    ensures CrashDuring(s1, v, t0, t1, addr, s2) && Pick(s2[0].Now(), s2[1].Now()).None?
  {
    hide Covers, SlotHistory, After, View, Fill;
    OwnPersistCovers(addr, 0);
    OwnPersistCovers(addr, 1);
    CoveredHistory(s, 0, u, t0, addr, addr);
    RewrittenIs(s[0], u, t0);
    var mid := SlotHistory(s, 0, u, t0, addr, addr)[5];
    CoveredHistory(mid, 1, u, t1, addr, addr + SLOT_SIZE);
    var h := History(s, u, t0, t1, addr, true)[7];
    s1 := Recovered(h[0].Now(), h[1].Now());
    assert h[0].MayBe(h[0].Now()) && h[1].MayBe(h[1].Now());
    CoveredHistory(s1, 0, v, t0, addr, addr);
    var g := History(s1, v, t0, t1, addr, true)[1];
    s2 := Recovered(g[0].Now(), g[1].Now());
    assert g[0].MayBe(g[0].Now()) && g[1].MayBe(g[1].Now());
  }

  /** A crash between the two slots, and the next one while slot 0 is invalid: the first update is undone. */
  lemma TwoCrashesUndoUpdate(s: Slots, u: Update, v: Update, t0: nat, t1: nat, addr: nat) returns (s1: Slots, s2: Slots)
    requires Settled(s) && t0 >= s[1].Now().timestamp
    ensures CrashDuring(s, u, t0, t1, addr, s1)
    ensures Pick(s1[0].Now(), s1[1].Now()).Some? && View(Pick(s1[0].Now(), s1[1].Now()).value) == After(s[0].Now(), u)
    ensures CrashDuring(s1, v, t0, t1, addr, s2)
    ensures Pick(s2[0].Now(), s2[1].Now()).Some? && View(Pick(s2[0].Now(), s2[1].Now()).value) == View(s[0].Now())
  {
    hide Covers, SlotHistory, After, View, Fill, Rewritten;
    OwnPersistCovers(addr, 0);
    CoveredHistory(s, 0, u, t0, addr, addr);
    RewrittenIs(s[0], u, t0);
    var h := History(s, u, t0, t1, addr, true)[5];
    s1 := Recovered(h[0].Now(), h[1].Now());
    assert h[0].MayBe(h[0].Now()) && h[1].MayBe(h[1].Now());
    CoveredHistory(s1, 0, v, t0, addr, addr);
    var g := History(s1, v, t0, t1, addr, true)[1];
    s2 := Recovered(g[0].Now(), g[1].Now());
    assert g[0].MayBe(g[0].Now()) && g[1].MayBe(g[1].Now());
  }

  // ----- the update itself, store by store

  class SuperblockPair {
    var slots: seq<Slot>
    const addr: nat
    /** Every state since construction in which power may fail. */
    ghost var states: seq<Slots>

    ghost predicate Valid() reads this { |slots| == 2 }

    constructor (addr: nat, slots: seq<Slot>)
      requires |slots| == 2
      ensures Valid() && this.addr == addr && this.slots == slots && states == []
    {
      this.addr := addr;
      this.slots := slots;
      states := [];
    }

    method PmemPersist(from: nat)
      requires Valid()
      modifies this
      ensures Valid() && slots == Persist(old(slots), addr, from) && states == old(states) + [slots]
    {
      slots := Persist(slots, addr, from);
      states := states + [slots];
    }

    method StoreValid(k: nat, v: bool)
      requires Valid() && k < 2
      modifies this
      ensures Valid() && states == old(states) + [slots]
      ensures slots == old(slots)[k := if v then Validate(old(slots)[k]) else Invalidate(old(slots)[k])]
    {
      slots := slots[k := slots[k].(valid := slots[k].valid.Store(v))];
      states := states + [slots];
    }

    /** The four field stores between two persists; see PartialFillIsCovered for a crash among them. */
    method StoreFields(k: nat, u: Update, time: nat)
      requires Valid() && k < 2
      modifies this
      ensures Valid() && states == old(states) + [slots]
      ensures slots == old(slots)[k := Fill(old(slots)[k], u, time)]
    {
      var s := slots[k];
      s := s.(timestamp := s.timestamp.Store(time));
      s := s.(stage := s.stage.Store(u.stage));
      if u.index.Some? { s := s.(index := s.index.Store(u.index.value)); }
      if u.phase.Some? { s := s.(phase := s.phase.Store(u.phase.value)); }
      slots := slots[k := s];
      states := states + [slots];
    }

    /** One round of the loop, as written: each of the three persists is given slot 0. */
    method UpdateSlot(k: nat, u: Update, time: nat)
      requires Valid() && k < 2
      modifies this
      ensures Valid() && states == old(states) + SlotHistory(old(slots), k, u, time, addr, addr)
      ensures slots == SlotHistory(old(slots), k, u, time, addr, addr)[5]
    {
      hide Persist, Fill, Validate, Invalidate;
      StoreValid(k, false);
      PmemPersist(addr);
      StoreFields(k, u, time);
      PmemPersist(addr);
      StoreValid(k, true);
      PmemPersist(addr);
    }

    method UpdateSuperblock(u: Update, time: seq<nat>)
      requires Valid() && |time| == 2
      modifies this
      ensures Valid()
      ensures states == old(states) + History(old(slots), u, time[0], time[1], addr, false)
      ensures slots == states[|states| - 1]
    {
      hide SlotHistory;
      ghost var h := SlotHistory(slots, 0, u, time[0], addr, addr);
      for k := 0 to 2
        invariant Valid()
        invariant k == 0 ==> slots == old(slots) && states == old(states)
        invariant k == 1 ==> slots == h[5] && states == old(states) + h
        invariant k == 2 ==> states == old(states) + h + SlotHistory(h[5], 1, u, time[1], addr, addr)
        invariant k == 2 ==> slots == states[|states| - 1]
      {
        UpdateSlot(k, u, time[k]);
      }
      assert states == old(states) + (h + SlotHistory(h[5], 1, u, time[1], addr, addr));
    }
  }
}
