/** The architecture-independent memmove and memset of libpmem. */
module MemOps {
  import opened PmemModel
  import opened Slices

  // ----- geometry of a store log

  ghost predicate Disjoint(x: Store, y: Store) { x.End() <= y.addr || y.End() <= x.addr }

  ghost predicate Covered(log: seq<Store>, a: nat) {
    exists i :: 0 <= i < |log| && log[i].addr <= a < log[i].End()
  }

  /** The stores are disjoint and together write exactly [lo, hi). */
  ghost predicate Tiles(log: seq<Store>, lo: nat, hi: nat) {
    && lo <= hi
    && (forall i :: 0 <= i < |log| ==> lo <= log[i].addr && log[i].End() <= hi)
    && (forall i, j :: 0 <= i < j < |log| ==> Disjoint(log[i], log[j]))
    && (forall a :: lo <= a < hi ==> Covered(log, a))
  }

  lemma TilesNone(a: nat)
    ensures Tiles([], a, a)
  {}

  lemma TilesOne(st: Store)
    requires |st.data| > 0
    ensures Tiles([st], st.addr, st.End())
  {
    forall a | st.addr <= a < st.End() ensures Covered([st], a) {
      assert [st][0].addr <= a < [st][0].End();
    }
  }

  /** Tilings of neighbouring ranges join, in either order of execution. */
  lemma TilesJoin(x: seq<Store>, y: seq<Store>, lo: nat, mid: nat, hi: nat)
    requires Tiles(x, lo, mid) && Tiles(y, mid, hi)
    ensures Tiles(x + y, lo, hi) && Tiles(y + x, lo, hi)
  {
    CoveredJoin(x, y);
    CoveredJoin(y, x);
    forall i, j | 0 <= i < j < |x + y| ensures Disjoint((x + y)[i], (x + y)[j]) {}
    forall i, j | 0 <= i < j < |y + x| ensures Disjoint((y + x)[i], (y + x)[j]) {}
  }

  lemma CoveredJoin(x: seq<Store>, y: seq<Store>)
    ensures forall a: nat :: Covered(x, a) || Covered(y, a) ==> Covered(x + y, a)
  {
    forall a: nat | Covered(x, a) || Covered(y, a) ensures Covered(x + y, a) {
      if Covered(x, a) {
        var i :| 0 <= i < |x| && x[i].addr <= a < x[i].End();
        assert (x + y)[i] == x[i];
      } else {
        var i :| 0 <= i < |y| && y[i].addr <= a < y[i].End();
        assert (x + y)[|x| + i] == y[i];
      }
    }
  }

  /** The aligned word at `w` lies wholly in the destination. */
  predicate WordInside(w: nat, d: nat, n: nat) { w % 8 == 0 && d <= w && w + 8 <= d + n }

  /** An aligned word store, or a byte store outside every whole aligned word of the destination. */
  ghost predicate Shaped(st: Store, d: nat, n: nat) {
    || (|st.data| == 8 && st.addr % 8 == 0)
    || (|st.data| == 1 && !WordInside(st.addr - st.addr % 8, d, n))
  }

  ghost predicate AllShaped(log: seq<Store>, d: nat, n: nat) {
    forall i :: 0 <= i < |log| ==> Shaped(log[i], d, n)
  }

  /** Exactly one store touches a whole aligned word, and it writes all eight bytes. */
  lemma OneStorePerWord(log: seq<Store>, d: nat, n: nat, w: nat) returns (i: nat)
    requires Tiles(log, d, d + n) && AllShaped(log, d, n) && WordInside(w, d, n)
    ensures i < |log| && log[i].addr == w && |log[i].data| == 8
    ensures forall j :: 0 <= j < |log| && j != i ==> log[j].End() <= w || w + 8 <= log[j].addr
  {
    assert Covered(log, w);
    i :| 0 <= i < |log| && log[i].addr <= w < log[i].End();
    WordStoreIs(log[i], d, n, w);
    forall j | 0 <= j < |log| && j != i ensures log[j].End() <= w || w + 8 <= log[j].addr {
      assert Disjoint(if i < j then log[i] else log[j], if i < j then log[j] else log[i]);
    }
  }

  lemma WordStoreIs(st: Store, d: nat, n: nat, w: nat)
    requires Shaped(st, d, n) && WordInside(w, d, n) && st.addr <= w < st.End()
    ensures st.addr == w && |st.data| == 8
  {
    var q, r := st.addr / 8, w / 8;
    assert w == 8 * r;
    if |st.data| == 8 && st.addr % 8 == 0 { assert st.addr == 8 * q; }
  }

  /** The eight bytes at `w` are the same in both memories. */
  ghost predicate SameWord(u: seq<Byte>, v: seq<Byte>, w: nat) {
    w + 8 <= |u| && w + 8 <= |v| && u[w..w + 8] == v[w..w + 8]
  }

  lemma WriteElsewhere(m: seq<Byte>, a: nat, data: seq<Byte>, w: nat)
    requires a + |data| <= |m| && w + 8 <= |m| && (a + |data| <= w || w + 8 <= a)
    ensures SameWord(Written(m, a, data), m, w)
  {}

  lemma WriteThere(m: seq<Byte>, w: nat, data: seq<Byte>)
    requires |data| == 8 && w + 8 <= |m|
    ensures Written(m, w, data)[w..w + 8] == data
  {}

  lemma {:induction false} UntouchedStays(m: seq<Byte>, log: seq<Store>, w: nat)
    requires InBounds(log, |m|) && w + 8 <= |m|
    requires forall j :: 0 <= j < |log| ==> log[j].End() <= w || w + 8 <= log[j].addr
    ensures SameWord(Replay(m, log), m, w)
  {
    if log != [] {
      hide Written;
      var k := |log| - 1;
      UntouchedStays(m, log[..k], w);
      WriteElsewhere(Replay(m, log[..k]), log[k].addr, log[k].data, w);
    }
  }

  /** The word is the old one before store `i` and the new one from then on. */
  lemma {:induction false} WordAfter(m: seq<Byte>, log: seq<Store>, w: nat, i: nat)
    requires InBounds(log, |m|) && w + 8 <= |m| && i < |log|
    requires log[i].addr == w && |log[i].data| == 8
    requires forall j :: 0 <= j < |log| && j != i ==> log[j].End() <= w || w + 8 <= log[j].addr
    ensures Replay(m, log)[w..w + 8] == log[i].data
  {
    hide Written;
    var k := |log| - 1;
    if i == k {
      WriteThere(Replay(m, log[..k]), w, log[k].data);
    } else {
      WordAfter(m, log[..k], w, i);
      WriteElsewhere(Replay(m, log[..k]), log[k].addr, log[k].data, w);
    }
  }

  /** At every intermediate point each whole aligned word is wholly old or wholly new. */
  lemma WordsAreAtomic(m: seq<Byte>, log: seq<Store>, d: nat, n: nat, w: nat, k: nat)
    requires InBounds(log, |m|) && d + n <= |m| && k <= |log|
    requires Tiles(log, d, d + n) && AllShaped(log, d, n) && WordInside(w, d, n)
    ensures InBounds(log[..k], |m|)
    ensures SameWord(Replay(m, log[..k]), m, w) || SameWord(Replay(m, log[..k]), Replay(m, log), w)
  {
    hide Replay, Tiles, Shaped;
    var i := OneStorePerWord(log, d, n, w);
    WordAfter(m, log, w, i);
    if i < k { WordAfter(m, log[..k], w, i); } else { UntouchedStays(m, log[..k], w); }
  }

  // ----- how far a copy has come

  /** Bytes `lo` up to `hi` of the copy have been made, from the original source bytes. */
  ghost predicate Moved(v0: seq<Byte>, v: seq<Byte>, d: nat, s: nat, lo: nat, hi: nat) {
    && lo <= hi && d + hi <= |v0| && s + hi <= |v0|
    && v == Written(v0, d + lo, v0[s + lo..s + hi])
  }

  ghost predicate Logged(log0: seq<Store>, log: seq<Store>, d: nat, n: nat, lo: nat, hi: nat) {
    && log0 <= log
    && Tiles(log[|log0|..], d + lo, d + hi)
    && AllShaped(log[|log0|..], d, n)
  }

  function Range(v: seq<Byte>, lo: nat, hi: nat): (p: map<nat, Byte>)
    requires hi <= |v|
  {
    map x | lo <= x < hi :: v[x]
  }

  /** Copying upward reads source bytes no earlier store has reached. */
  ghost predicate UpSafe(d: nat, s: nat, n: nat) { d <= s || s + n <= d }

  /** A byte of a partly made copy. */
  lemma MovedAt(v0: seq<Byte>, v: seq<Byte>, d: nat, s: nat, lo: nat, hi: nat, i: nat)
    requires Moved(v0, v, d, s, lo, hi) && i < |v0|
    ensures |v| == |v0| && v[i] == if d + lo <= i < d + hi then v0[s + (i - d)] else v0[i]
  {
    hide Written;
    WrittenAt(v0, d + lo, v0[s + lo..s + hi], i);
  }

  lemma MovedLength(v0: seq<Byte>, v: seq<Byte>, d: nat, s: nat, lo: nat, hi: nat)
    requires Moved(v0, v, d, s, lo, hi)
    ensures |v| == |v0|
  {}

  lemma ReadUp(v0: seq<Byte>, v: seq<Byte>, d: nat, s: nat, n: nat, at: nat, len: nat)
    requires Moved(v0, v, d, s, 0, at) && UpSafe(d, s, n) && at + len <= n
    requires d + n <= |v0| && s + n <= |v0|
    ensures |v| == |v0| && v[s + at..s + at + len] == v0[s + at..s + at + len]
  {
    hide Moved;
    MovedLength(v0, v, d, s, 0, at);
    forall i | s + at <= i < s + at + len ensures v[i] == v0[i] { MovedAt(v0, v, d, s, 0, at, i); }
  }

  lemma ReadDown(v0: seq<Byte>, v: seq<Byte>, d: nat, s: nat, n: nat, at: nat, len: nat)
    requires Moved(v0, v, d, s, at, n) && s <= d && len <= at
    ensures |v| == |v0| && v[s + at - len..s + at] == v0[s + at - len..s + at]
  {
    MovedLength(v0, v, d, s, at, n);
    assert at <= n && s + n <= |v0| && d + n <= |v0|;
    hide Moved;
    forall i | s + at - len <= i < s + at ensures v[i] == v0[i] { MovedAt(v0, v, d, s, at, n, i); }
  }

  /** Copying [from, to) next to [lo, hi) makes [a, b); byte by byte. */
  lemma MoveMoreAt(v0: seq<Byte>, v: seq<Byte>, d: nat, s: nat, lo: nat, hi: nat, from: nat, to: nat,
                   a: nat, b: nat, i: nat)
    requires Moved(v0, v, d, s, lo, hi) && |v| == |v0| && lo <= hi && from <= to
    requires d + b <= |v0| && s + b <= |v0| && i < |v0|
    requires (a == lo && from == hi && b == to) || (a == from && to == lo && b == hi)
    ensures Written(v, d + from, v0[s + from..s + to])[i] == Written(v0, d + a, v0[s + a..s + b])[i]
  {
    hide Written, Moved;
    WrittenAt(v, d + from, v0[s + from..s + to], i);
    WrittenAt(v0, d + a, v0[s + a..s + b], i);
    MovedAt(v0, v, d, s, lo, hi, i);
  }

  lemma MoveUp(v0: seq<Byte>, v: seq<Byte>, d: nat, s: nat, at: nat, len: nat)
    requires Moved(v0, v, d, s, 0, at) && d + at + len <= |v0| && s + at + len <= |v0|
    ensures Moved(v0, Written(v, d + at, v0[s + at..s + at + len]), d, s, 0, at + len)
  {
    hide Written;
    MovedLength(v0, v, d, s, 0, at);
    var x, y := Written(v, d + at, v0[s + at..s + at + len]), Written(v0, d + 0, v0[s + 0..s + (at + len)]);
    forall i | 0 <= i < |v0| ensures x[i] == y[i] { MoveMoreAt(v0, v, d, s, 0, at, at, at + len, 0, at + len, i); }
    assert x == y;
  }

  lemma MoveDown(v0: seq<Byte>, v: seq<Byte>, d: nat, s: nat, n: nat, at: nat, len: nat)
    requires Moved(v0, v, d, s, at, n) && len <= at
    ensures Moved(v0, Written(v, d + at - len, v0[s + at - len..s + at]), d, s, at - len, n)
  {
    hide Written;
    MovedLength(v0, v, d, s, at, n);
    var lo := at - len;
    var x, y := Written(v, d + lo, v0[s + lo..s + at]), Written(v0, d + lo, v0[s + lo..s + n]);
    forall i | 0 <= i < |v0| ensures x[i] == y[i] { MoveMoreAt(v0, v, d, s, at, n, lo, at, lo, n, i); }
    assert x == y;
  }

  lemma LogUp(log0: seq<Store>, log: seq<Store>, new_: seq<Store>, d: nat, n: nat, lo: nat, mid: nat, hi: nat)
    requires Logged(log0, log, d, n, lo, mid) && Tiles(new_, d + mid, d + hi) && AllShaped(new_, d, n)
    ensures Logged(log0, log + new_, d, n, lo, hi)
  {
    hide Tiles, Shaped;
    TilesJoin(log[|log0|..], new_, d + lo, d + mid, d + hi);
    assert (log + new_)[|log0|..] == log[|log0|..] + new_;
  }

  lemma LogDown(log0: seq<Store>, log: seq<Store>, new_: seq<Store>, d: nat, n: nat, lo: nat, mid: nat, hi: nat)
    requires Logged(log0, log, d, n, mid, hi) && Tiles(new_, d + lo, d + mid) && AllShaped(new_, d, n)
    ensures Logged(log0, log + new_, d, n, lo, hi)
  {
    hide Tiles, Shaped;
    TilesJoin(new_, log[|log0|..], d + lo, d + mid, d + hi);
    assert (log + new_)[|log0|..] == log[|log0|..] + new_;
  }

  /** Eight word stores in ascending order. */
  function Words(a: nat, data: seq<Byte>): (log: seq<Store>)
    requires |data| % 8 == 0
    ensures |log| == |data| / 8
    decreases |data|
  {
    if data == [] then [] else Words(a, data[..|data| - 8]) + [Store(a + |data| - 8, data[|data| - 8..])]
  }

  lemma {:induction false} WordsTile(a: nat, data: seq<Byte>, d: nat, n: nat)
    requires |data| % 8 == 0 && a % 8 == 0
    ensures Tiles(Words(a, data), a, a + |data|) && AllShaped(Words(a, data), d, n)
    decreases |data|
  {
    hide Tiles;
    if data == [] {
      TilesNone(a);
    } else {
      var k := |data| - 8;
      var st := Store(a + k, data[k..]);
      WordsTile(a, data[..k], d, n);
      TilesOne(st);
      TilesJoin(Words(a, data[..k]), [st], a, a + k, a + |data|);
    }
  }

  /** One call: memory, log, pending bytes and flags at entry, destination, source, length. */
  datatype Job = Job(v0: seq<Byte>, log0: seq<Store>, p0: map<nat, Byte>, flags: bv32, d: nat, s: nat, n: nat) {
    ghost predicate Fits() { d + n <= |v0| && s + n <= |v0| }
  }

  /** The first `at` bytes are copied and logged. */
  ghost predicate Up(j: Job, v: seq<Byte>, log: seq<Store>, at: nat) {
    at <= j.n && Moved(j.v0, v, j.d, j.s, 0, at) && Logged(j.log0, log, j.d, j.n, 0, at)
  }

  /** All but the first `at` bytes are copied and logged. */
  ghost predicate Down(j: Job, v: seq<Byte>, log: seq<Store>, at: nat) {
    at <= j.n && Moved(j.v0, v, j.d, j.s, at, j.n) && Logged(j.log0, log, j.d, j.n, at, j.n)
  }

  lemma StepUp(j: Job, v: seq<Byte>, log: seq<Store>, at: nat, len: nat, new_: seq<Store>)
    requires j.Fits() && UpSafe(j.d, j.s, j.n) && Up(j, v, log, at) && at + len <= j.n
    requires Tiles(new_, j.d + at, j.d + at + len) && AllShaped(new_, j.d, j.n)
    ensures |v| == |j.v0| && Up(j, Written(v, j.d + at, v[j.s + at..j.s + at + len]), log + new_, at + len)
  {
    hide Moved, Logged, Tiles, AllShaped, Written;
    MovedLength(j.v0, v, j.d, j.s, 0, at);
    ReadUp(j.v0, v, j.d, j.s, j.n, at, len);
    MoveUp(j.v0, v, j.d, j.s, at, len);
    LogUp(j.log0, log, new_, j.d, j.n, 0, at, at + len);
  }

  lemma StepDown(j: Job, v: seq<Byte>, log: seq<Store>, at: nat, len: nat, new_: seq<Store>)
    requires j.Fits() && j.s <= j.d && Down(j, v, log, at) && len <= at
    requires Tiles(new_, j.d + at - len, j.d + at) && AllShaped(new_, j.d, j.n)
    ensures |v| == |j.v0| && Down(j, Written(v, j.d + at - len, v[j.s + at - len..j.s + at]), log + new_, at - len)
  {
    hide Moved, Logged, Tiles, AllShaped, Written;
    MovedLength(j.v0, v, j.d, j.s, at, j.n);
    ReadDown(j.v0, v, j.d, j.s, j.n, at, len);
    MoveDown(j.v0, v, j.d, j.s, j.n, at, len);
    LogDown(j.log0, log, new_, j.d, j.n, at - len, at, j.n);
  }

  // ----- flushing

  const NODRAIN: bv32 := 0x01
  const NOFLUSH: bv32 := 0x20

  ghost predicate Flushes(flags: bv32) { flags & NOFLUSH == 0 }

  /** The call has flushed [lo, hi) and nothing else, unless told not to flush. */
  ghost predicate Pended(p0: map<nat, Byte>, p: map<nat, Byte>, v: seq<Byte>, lo: nat, hi: nat, flags: bv32) {
    hi <= |v| && p == if Flushes(flags) then p0 + Range(v, lo, hi) else p0
  }

  lemma RangeFrame(v: seq<Byte>, a: nat, data: seq<Byte>, lo: nat, hi: nat)
    requires a + |data| <= |v| && hi <= |v| && (hi <= a || a + |data| <= lo)
    ensures Range(Written(v, a, data), lo, hi) == Range(v, lo, hi)
  {}

  lemma RangeJoin(p: map<nat, Byte>, v: seq<Byte>, lo: nat, mid: nat, hi: nat)
    requires lo <= mid <= hi <= |v|
    ensures p + Range(v, lo, mid) + Range(v, mid, hi) == p + Range(v, lo, hi)
    ensures p + Range(v, mid, hi) + Range(v, lo, mid) == p + Range(v, lo, hi)
  {}

  lemma PendedFrame(p0: map<nat, Byte>, p: map<nat, Byte>, v: seq<Byte>, lo: nat, hi: nat, flags: bv32,
                    a: nat, data: seq<Byte>)
    requires Pended(p0, p, v, lo, hi, flags) && a + |data| <= |v| && (hi <= a || a + |data| <= lo)
    ensures Pended(p0, p, Written(v, a, data), lo, hi, flags)
  {
    hide Flushes, Range, Written;
    RangeFrame(v, a, data, lo, hi);
  }

  method PmemFlushFlags(m: Memory, a: nat, n: nat, flags: bv32)
    requires m.Valid() && a + n <= m.vol.Length
    modifies m`pending
    ensures m.Valid()
    ensures m.pending == if Flushes(flags) then old(m.pending) + Range(m.vol[..], a, a + n) else old(m.pending)
  {
    if flags & NOFLUSH == 0 {
      m.Flush(a, n);
      assert Range(m.vol[..], a, a + n) == map x | a <= x < a + n :: m.vol[x];
    }
  }

  // ----- copying units

  method CpyByte(m: Memory, d: nat, s: nat)
    requires m.Valid() && d < m.vol.Length && s < m.vol.Length
    modifies m, m.vol
    ensures m.Valid() && m.base == old(m.base) && m.pending == old(m.pending) && m.image == old(m.image)
    ensures m.vol[..] == Written(old(m.vol[..]), d, old(m.vol[..])[s..s + 1])
    ensures m.stores == old(m.stores) + [Store(d, old(m.vol[..])[s..s + 1])]
  {
    assert m.vol[..][s..s + 1] == [m.vol[s]];
    m.StoreByte(d, m.vol[s]);
  }

  method Cpy8(m: Memory, d: nat, s: nat)
    requires m.Valid() && d + 8 <= m.vol.Length && s + 8 <= m.vol.Length
    modifies m, m.vol
    ensures m.Valid() && m.base == old(m.base) && m.pending == old(m.pending) && m.image == old(m.image)
    ensures m.vol[..] == Written(old(m.vol[..]), d, old(m.vol[..])[s..s + 8])
    ensures m.stores == old(m.stores) + [Store(d, old(m.vol[..])[s..s + 8])]
  {
    var tmp := m.Load8(s);
    m.Store8(d, tmp);
  }

  method Load64(m: Memory, s: nat) returns (tmp: seq<seq<Byte>>)
    requires m.Valid() && s + 64 <= m.vol.Length
    ensures |tmp| == 8 && forall j :: 0 <= j < 8 ==> tmp[j] == m.vol[..][s..s + 64][8 * j..8 * j + 8]
  {
    ghost var data := m.vol[..][s..s + 64];
    tmp := [];
    for i := 0 to 8
      invariant |tmp| == i
      invariant forall j :: 0 <= j < i ==> tmp[j] == data[8 * j..8 * j + 8]
    {
      var w := m.Load8(s + 8 * i);
      SubSlice(m.vol[..], s, 64, 8 * i, 8);
      tmp := tmp + [w];
    }
  }

  /** All eight words are loaded before the first is stored. */
  method Cpy64(m: Memory, d: nat, s: nat)
    requires m.Valid() && d + 64 <= m.vol.Length && s + 64 <= m.vol.Length
    modifies m, m.vol
    ensures m.Valid() && m.base == old(m.base) && m.pending == old(m.pending) && m.image == old(m.image)
    ensures m.vol[..] == Written(old(m.vol[..]), d, old(m.vol[..])[s..s + 64])
    ensures m.stores == old(m.stores) + Words(d, old(m.vol[..])[s..s + 64])
  {
    hide Written, Words;
    ghost var data := m.vol[..][s..s + 64];
    var tmp := Load64(m, s);
    WordsStart(m.vol[..], d, m.stores, data);
    for i := 0 to 8
      invariant m.Valid() && m.base == old(m.base) && m.pending == old(m.pending) && m.image == old(m.image)
      invariant m.vol[..] == Written(old(m.vol[..]), d, data[..8 * i])
      invariant m.stores == old(m.stores) + Words(d, data[..8 * i])
    {
      WordsStep(old(m.vol[..]), d, old(m.stores), data, i);
      m.Store8(d + 8 * i, tmp[i]);
    }
    assert data[..64] == data;
  }

  lemma WordsStart(v: seq<Byte>, d: nat, log: seq<Store>, data: seq<Byte>)
    requires d <= |v|
    ensures Written(v, d, data[..0]) == v && log + Words(d, data[..0]) == log
  {}

  lemma WordsStep(v: seq<Byte>, d: nat, log: seq<Store>, data: seq<Byte>, i: nat)
    requires |data| == 64 && i < 8 && d + 64 <= |v|
    ensures Written(Written(v, d, data[..8 * i]), d + 8 * i, data[8 * i..8 * i + 8]) == Written(v, d, data[..8 * i + 8])
    ensures log + Words(d, data[..8 * i]) + [Store(d + 8 * i, data[8 * i..8 * i + 8])]
            == log + Words(d, data[..8 * i + 8])
  {
    var t := data[..8 * i + 8];
    assert t[..8 * i] == data[..8 * i] && t[8 * i..] == data[8 * i..8 * i + 8];
  }

  // ----- copying upward

  /** Where a call stands: the memory matches the job up to `at`, and [d, flushed) is flushed. */
  ghost predicate UpState(m: Memory, j: Job, at: nat, flushed: nat)
    reads m, m.vol
  {
    && m.Valid() && j.Fits() && |j.v0| == m.vol.Length && UpSafe(j.d, j.s, j.n)
    && at <= j.n && Up(j, m.vol[..], m.stores, at)
    && flushed <= j.d + at && Pended(j.p0, m.pending, m.vol[..], j.d, flushed, j.flags)
  }

  method BytesUp(m: Memory, cdst: nat, csrc: nat, cnt: nat, ghost j: Job, ghost at: nat, ghost flushed: nat)
    requires UpState(m, j, at, flushed)
    requires cdst == j.d + at && csrc == j.s + at && at + cnt <= j.n
    requires forall a :: cdst <= a < cdst + cnt ==> !WordInside(a - a % 8, j.d, j.n)
    modifies m, m.vol
    ensures m.base == old(m.base) && m.image == old(m.image)
    ensures UpState(m, j, at + cnt, flushed)
  {
    hide UpState, WordInside;
    for i := 0 to cnt
      invariant m.base == old(m.base) && m.image == old(m.image)
      invariant UpState(m, j, at + i, flushed)
    {
      ByteUp(m, cdst + i, csrc + i, j, at + i, flushed);
    }
  }

  method ByteUp(m: Memory, d: nat, s: nat, ghost j: Job, ghost at: nat, ghost flushed: nat)
    requires UpState(m, j, at, flushed) && d == j.d + at && s == j.s + at && at < j.n
    requires !WordInside(d - d % 8, j.d, j.n)
    modifies m, m.vol
    ensures m.base == old(m.base) && m.image == old(m.image)
    ensures UpState(m, j, at + 1, flushed)
  {
    hide Up, Pended, WordInside, UpSafe, Written;
    ByteUpStep(j, m.vol[..], m.stores, at);
    PendedFrame(j.p0, m.pending, m.vol[..], j.d, flushed, j.flags, d, m.vol[..][s..s + 1]);
    CpyByte(m, d, s);
  }

  lemma ByteUpStep(j: Job, v: seq<Byte>, log: seq<Store>, at: nat)
    requires j.Fits() && UpSafe(j.d, j.s, j.n) && Up(j, v, log, at) && at < j.n
    requires !WordInside(j.d + at - (j.d + at) % 8, j.d, j.n)
    ensures |v| == |j.v0|
    ensures var x := v[j.s + at..j.s + at + 1];
      Up(j, Written(v, j.d + at, x), log + [Store(j.d + at, x)], at + 1)
  {
    hide Up, Tiles;
    assert |v| == |j.v0| by { UpLength(j, v, log, at); }
    var st := Store(j.d + at, v[j.s + at..j.s + at + 1]);
    TilesOne(st);
    StepUp(j, v, log, at, 1, [st]);
  }

  lemma UpLength(j: Job, v: seq<Byte>, log: seq<Store>, at: nat)
    requires Up(j, v, log, at)
    ensures |v| == |j.v0|
  {}

  lemma WordUpStep(j: Job, v: seq<Byte>, log: seq<Store>, at: nat)
    requires j.Fits() && UpSafe(j.d, j.s, j.n) && Up(j, v, log, at) && at + 8 <= j.n && (j.d + at) % 8 == 0
    ensures |v| == |j.v0|
    ensures var x := v[j.s + at..j.s + at + 8];
      Up(j, Written(v, j.d + at, x), log + [Store(j.d + at, x)], at + 8)
  {
    hide Up, Tiles;
    assert |v| == |j.v0| by { UpLength(j, v, log, at); }
    var st := Store(j.d + at, v[j.s + at..j.s + at + 8]);
    TilesOne(st);
    StepUp(j, v, log, at, 8, [st]);
  }

  lemma BlockUpStep(j: Job, v: seq<Byte>, log: seq<Store>, at: nat)
    requires j.Fits() && UpSafe(j.d, j.s, j.n) && Up(j, v, log, at) && at + 64 <= j.n && (j.d + at) % 8 == 0
    ensures |v| == |j.v0|
    ensures var x := v[j.s + at..j.s + at + 64];
      Up(j, Written(v, j.d + at, x), log + Words(j.d + at, x), at + 64)
  {
    hide Up, Tiles, AllShaped, Words;
    assert |v| == |j.v0| by { UpLength(j, v, log, at); }
    var x := v[j.s + at..j.s + at + 64];
    WordsTile(j.d + at, x, j.d, j.n);
    StepUp(j, v, log, at, 64, Words(j.d + at, x));
  }

  method BlocksUp(m: Memory, dst: nat, src: nat, n: nat, flags: bv32, ghost j: Job, ghost at: nat)
    returns (cdst: nat, csrc: nat, len: nat)
    requires flags == j.flags
    requires j.d + at == dst && j.s + at == src && j.n - at == n && (dst % 8 == 0 || n == 0)
    requires UpState(m, j, at, dst)
    modifies m, m.vol
    ensures m.base == old(m.base) && m.image == old(m.image)
    ensures len < 64 && len <= n && cdst == j.d + j.n - len && csrc == j.s + j.n - len && (cdst % 8 == 0 || len == 0)
    ensures UpState(m, j, j.n - len, cdst)
  {
    hide Up, Pended, UpSafe, Written, Words, Range, Flushes;
    cdst, csrc, len := dst, src, n;
    while len >= 64
      invariant m.base == old(m.base) && m.image == old(m.image)
      invariant len <= n && cdst == j.d + j.n - len && csrc == j.s + j.n - len && (cdst % 8 == 0 || len == 0)
      invariant UpState(m, j, j.n - len, cdst)
    {
      BlockUpStep(j, m.vol[..], m.stores, j.n - len);
      PendedFrame(j.p0, m.pending, m.vol[..], j.d, cdst, j.flags, cdst, m.vol[..][csrc..csrc + 64]);
      Cpy64(m, cdst, csrc);
      PendedGrows(j.p0, m.pending, m.vol[..], j.d, cdst, cdst + 64, flags);
      PmemFlushFlags(m, cdst, 64, flags);
      len, cdst, csrc := len - 64, cdst + 64, csrc + 64;
    }
  }

  method WordsUp(m: Memory, dst: nat, src: nat, n: nat, ghost j: Job, ghost at: nat, ghost flushed: nat)
    returns (cdst: nat, csrc: nat, len: nat)
    requires j.d + at == dst && j.s + at == src && j.n - at == n && (dst % 8 == 0 || n == 0)
    requires UpState(m, j, at, flushed)
    modifies m, m.vol
    ensures m.base == old(m.base) && m.image == old(m.image)
    ensures len < 8 && len <= n && cdst == j.d + j.n - len && csrc == j.s + j.n - len && (cdst % 8 == 0 || len == 0)
    ensures UpState(m, j, j.n - len, flushed)
  {
    hide UpState;
    cdst, csrc, len := dst, src, n;
    while len >= 8
      invariant m.base == old(m.base) && m.image == old(m.image)
      invariant len <= n && cdst == j.d + j.n - len && csrc == j.s + j.n - len && (cdst % 8 == 0 || len == 0)
      invariant UpState(m, j, j.n - len, flushed)
    {
      WordUp(m, cdst, csrc, j, j.n - len, flushed);
      len, cdst, csrc := len - 8, cdst + 8, csrc + 8;
    }
  }

  method WordUp(m: Memory, d: nat, s: nat, ghost j: Job, ghost at: nat, ghost flushed: nat)
    requires UpState(m, j, at, flushed) && d == j.d + at && s == j.s + at && at + 8 <= j.n && d % 8 == 0
    modifies m, m.vol
    ensures m.base == old(m.base) && m.image == old(m.image)
    ensures UpState(m, j, at + 8, flushed)
  {
    hide Up, Pended, UpSafe, Written;
    WordUpStep(j, m.vol[..], m.stores, at);
    PendedFrame(j.p0, m.pending, m.vol[..], j.d, flushed, j.flags, d, m.vol[..][s..s + 8]);
    Cpy8(m, d, s);
  }

  method FlushUp(m: Memory, a: nat, n: nat, flags: bv32, ghost j: Job, ghost at: nat)
    requires flags == j.flags
    requires UpState(m, j, at, a) && j.d <= a && a + n <= j.d + at
    modifies m
    ensures m.base == old(m.base) && m.image == old(m.image)
    ensures UpState(m, j, at, a + n)
  {
    hide Up, Pended, UpSafe, Range, Flushes;
    PendedGrows(j.p0, m.pending, m.vol[..], j.d, a, a + n, flags);
    PmemFlushFlags(m, a, n, flags);
  }

  /** Bytes up to the first aligned destination address. */
  method HeadUp(m: Memory, dst: nat, src: nat, n: nat, flags: bv32, ghost j: Job)
    returns (cnt: nat)
    requires flags == j.flags
    requires UpState(m, j, 0, dst) && j.d == dst && j.s == src && j.n == n
    modifies m, m.vol
    ensures m.base == old(m.base) && m.image == old(m.image)
    ensures cnt <= n && ((dst + cnt) % 8 == 0 || cnt == n)
    ensures UpState(m, j, cnt, dst + cnt)
  {
    hide UpState, WordInside;
    cnt := dst % 8;
    if cnt > 0 {
      cnt := 8 - cnt;
      if cnt > n { cnt := n; }
      HeadBytes(dst, n, cnt);
      BytesUp(m, dst, src, cnt, j, 0, dst);
      FlushUp(m, dst, cnt, flags, j, cnt);
    }
  }

  /** The branch for `dst - src >= len`, modulo 2^64. */
  method MoveForward(m: Memory, dst: nat, src: nat, n: nat, flags: bv32)
    requires m.Valid() && dst + n <= m.vol.Length && src + n <= m.vol.Length && UpSafe(dst, src, n)
    modifies m, m.vol
    ensures m.base == old(m.base) && m.image == old(m.image)
    ensures UpState(m, Job(old(m.vol[..]), old(m.stores), old(m.pending), flags, dst, src, n), n, dst + n)
  {
    hide UpState, WordInside;
    ghost var j := Job(m.vol[..], m.stores, m.pending, flags, dst, src, n);
    UpStateStarts(m, dst, src, n, flags);
    var cnt := HeadUp(m, dst, src, n, flags, j);
    var cdst, csrc, len := dst + cnt, src + cnt, n - cnt;
    cdst, csrc, len := BlocksUp(m, cdst, csrc, len, flags, j, cnt);
    var remaining := len;
    cdst, csrc, len := WordsUp(m, cdst, csrc, len, j, n - len, cdst);
    TailBytes(dst, n, cdst, len);
    BytesUp(m, cdst, csrc, len, j, n - len, dst + n - remaining);
    cdst, csrc := cdst + len, csrc + len;
    if remaining > 0 {
      FlushUp(m, cdst - remaining, remaining, flags, j, n);
    }
  }

  lemma UpStateStarts(m: Memory, dst: nat, src: nat, n: nat, flags: bv32)
    requires m.Valid() && dst + n <= m.vol.Length && src + n <= m.vol.Length && UpSafe(dst, src, n)
    ensures UpState(m, Job(m.vol[..], m.stores, m.pending, flags, dst, src, n), 0, dst)
  {
    hide Up, Pended, UpSafe;
    UpStarts(Job(m.vol[..], m.stores, m.pending, flags, dst, src, n));
    PendedStarts(m.pending, m.vol[..], dst, flags);
  }

  lemma UpStarts(j: Job)
    requires j.Fits()
    ensures Up(j, j.v0, j.log0, 0)
  {
    assert j.v0[j.s..j.s] == [] && j.log0[|j.log0|..] == [];
  }

  lemma PendedStarts(p: map<nat, Byte>, v: seq<Byte>, a: nat, flags: bv32)
    requires a <= |v|
    ensures Pended(p, p, v, a, a, flags)
  {
    hide Flushes;
    assert p + Range(v, a, a) == p;
  }

  lemma PendedGrows(p0: map<nat, Byte>, p: map<nat, Byte>, v: seq<Byte>, lo: nat, mid: nat, hi: nat, flags: bv32)
    requires lo <= mid <= hi <= |v| && Pended(p0, p, v, lo, mid, flags)
    ensures Pended(p0, if Flushes(flags) then p + Range(v, mid, hi) else p, v, lo, hi, flags)
  {
    hide Flushes, Range;
    RangeJoin(p0, v, lo, mid, hi);
  }

  /** Bytes before the first aligned address lie in no whole word of the destination. */
  lemma HeadBytes(d: nat, n: nat, cnt: nat)
    requires d % 8 != 0 && cnt <= 8 - d % 8
    ensures forall a :: d <= a < d + cnt ==> !WordInside(a - a % 8, d, n)
  {}

  /** Fewer than eight bytes after the last aligned address lie in no whole word either. */
  lemma TailBytes(d: nat, n: nat, c: nat, len: nat)
    requires len < 8 && c + len == d + n && (c % 8 == 0 || len == 0)
    ensures forall a :: c <= a < c + len ==> !WordInside(a - a % 8, d, n)
  {}

  // ----- copying downward

  ghost predicate DownState(m: Memory, j: Job, at: nat, flushed: nat)
    reads m, m.vol
  {
    && m.Valid() && j.Fits() && |j.v0| == m.vol.Length && j.s <= j.d
    && at <= j.n && Down(j, m.vol[..], m.stores, at)
    && j.d + at <= flushed <= j.d + j.n && Pended(j.p0, m.pending, m.vol[..], flushed, j.d + j.n, j.flags)
  }

  lemma DownLength(j: Job, v: seq<Byte>, log: seq<Store>, at: nat)
    requires Down(j, v, log, at)
    ensures |v| == |j.v0| && at <= j.n
  {}

  lemma ByteDownStep(j: Job, v: seq<Byte>, log: seq<Store>, at: nat)
    requires j.Fits() && j.s <= j.d && Down(j, v, log, at) && 1 <= at
    requires !WordInside(j.d + at - 1 - (j.d + at - 1) % 8, j.d, j.n)
    ensures |v| == |j.v0|
    ensures var x := v[j.s + at - 1..j.s + at];
      Down(j, Written(v, j.d + at - 1, x), log + [Store(j.d + at - 1, x)], at - 1)
  {
    hide Down, Tiles;
    assert |v| == |j.v0| && at <= j.n by { DownLength(j, v, log, at); }
    var st := Store(j.d + at - 1, v[j.s + at - 1..j.s + at]);
    TilesOne(st);
    StepDown(j, v, log, at, 1, [st]);
  }

  lemma WordDownStep(j: Job, v: seq<Byte>, log: seq<Store>, at: nat)
    requires j.Fits() && j.s <= j.d && Down(j, v, log, at) && 8 <= at && (j.d + at) % 8 == 0
    ensures |v| == |j.v0|
    ensures var x := v[j.s + at - 8..j.s + at];
      Down(j, Written(v, j.d + at - 8, x), log + [Store(j.d + at - 8, x)], at - 8)
  {
    hide Down, Tiles;
    assert |v| == |j.v0| && at <= j.n by { DownLength(j, v, log, at); }
    var st := Store(j.d + at - 8, v[j.s + at - 8..j.s + at]);
    TilesOne(st);
    StepDown(j, v, log, at, 8, [st]);
  }

  lemma BlockDownStep(j: Job, v: seq<Byte>, log: seq<Store>, at: nat)
    requires j.Fits() && j.s <= j.d && Down(j, v, log, at) && 64 <= at && (j.d + at) % 8 == 0
    ensures |v| == |j.v0|
    ensures var x := v[j.s + at - 64..j.s + at];
      Down(j, Written(v, j.d + at - 64, x), log + Words(j.d + at - 64, x), at - 64)
  {
    hide Down, Tiles, AllShaped, Words;
    assert |v| == |j.v0| && at <= j.n by { DownLength(j, v, log, at); }
    var x := v[j.s + at - 64..j.s + at];
    WordsTile(j.d + at - 64, x, j.d, j.n);
    StepDown(j, v, log, at, 64, Words(j.d + at - 64, x));
  }

  method BytesDown(m: Memory, cdst: nat, csrc: nat, cnt: nat, ghost j: Job, ghost at: nat, ghost flushed: nat)
    requires DownState(m, j, at, flushed)
    requires cnt <= at && cdst == j.d + at - cnt && csrc == j.s + at - cnt
    requires forall a :: cdst <= a < cdst + cnt ==> !WordInside(a - a % 8, j.d, j.n)
    modifies m, m.vol
    ensures m.base == old(m.base) && m.image == old(m.image)
    ensures DownState(m, j, at - cnt, flushed)
  {
    hide DownState, WordInside;
    for i := cnt downto 0
      invariant m.base == old(m.base) && m.image == old(m.image)
      invariant DownState(m, j, at - (cnt - i), flushed)
    {
      ByteDown(m, cdst + i, csrc + i, j, at - (cnt - i) + 1, flushed);
    }
  }

  method ByteDown(m: Memory, d: nat, s: nat, ghost j: Job, ghost at: nat, ghost flushed: nat)
    requires DownState(m, j, at, flushed) && 1 <= at && d == j.d + at - 1 && s == j.s + at - 1
    requires !WordInside(d - d % 8, j.d, j.n)
    modifies m, m.vol
    ensures m.base == old(m.base) && m.image == old(m.image)
    ensures DownState(m, j, at - 1, flushed)
  {
    hide Down, Pended, WordInside, Written;
    ByteDownStep(j, m.vol[..], m.stores, at);
    PendedFrame(j.p0, m.pending, m.vol[..], flushed, j.d + j.n, j.flags, d, m.vol[..][s..s + 1]);
    CpyByte(m, d, s);
  }

  method FlushDown(m: Memory, a: nat, n: nat, flags: bv32, ghost j: Job, ghost at: nat)
    requires flags == j.flags
    requires DownState(m, j, at, a + n) && j.d + at <= a
    modifies m
    ensures m.base == old(m.base) && m.image == old(m.image)
    ensures DownState(m, j, at, a)
  {
    hide Down, Pended, Range, Flushes;
    PendedGrowsDown(j.p0, m.pending, m.vol[..], a, a + n, j.d + j.n, flags);
    PmemFlushFlags(m, a, n, flags);
  }

  lemma PendedGrowsDown(p0: map<nat, Byte>, p: map<nat, Byte>, v: seq<Byte>, lo: nat, mid: nat, hi: nat, flags: bv32)
    requires lo <= mid <= hi <= |v| && Pended(p0, p, v, mid, hi, flags)
    ensures Pended(p0, if Flushes(flags) then p + Range(v, lo, mid) else p, v, lo, hi, flags)
  {
    hide Flushes, Range;
    RangeJoin(p0, v, lo, mid, hi);
  }

  method BlocksDown(m: Memory, dst: nat, src: nat, n: nat, flags: bv32, ghost j: Job)
    returns (cdst: nat, csrc: nat, len: nat)
    requires flags == j.flags
    requires j.d + n == dst && j.s + n == src && (dst % 8 == 0 || n == 0)
    requires DownState(m, j, n, dst)
    modifies m, m.vol
    ensures m.base == old(m.base) && m.image == old(m.image)
    ensures len < 64 && len <= n && cdst == j.d + len && csrc == j.s + len && (cdst % 8 == 0 || len == 0)
    ensures DownState(m, j, len, cdst)
  {
    hide Down, Pended, Written, Words, Range, Flushes;
    cdst, csrc, len := dst, src, n;
    while len >= 64
      invariant m.base == old(m.base) && m.image == old(m.image)
      invariant len <= n && cdst == j.d + len && csrc == j.s + len && (cdst % 8 == 0 || len == 0)
      invariant DownState(m, j, len, cdst)
    {
      BlockDownStep(j, m.vol[..], m.stores, len);
      cdst, csrc := cdst - 64, csrc - 64;
      PendedFrame(j.p0, m.pending, m.vol[..], cdst + 64, j.d + j.n, j.flags, cdst, m.vol[..][csrc..csrc + 64]);
      Cpy64(m, cdst, csrc);
      PendedGrowsDown(j.p0, m.pending, m.vol[..], cdst, cdst + 64, j.d + j.n, flags);
      PmemFlushFlags(m, cdst, 64, flags);
      len := len - 64;
    }
  }

  method WordsDown(m: Memory, dst: nat, src: nat, n: nat, ghost j: Job, ghost flushed: nat)
    returns (cdst: nat, csrc: nat, len: nat)
    requires j.d + n == dst && j.s + n == src && (dst % 8 == 0 || n == 0)
    requires DownState(m, j, n, flushed)
    modifies m, m.vol
    ensures m.base == old(m.base) && m.image == old(m.image)
    ensures len < 8 && len <= n && cdst == j.d + len && csrc == j.s + len && (cdst % 8 == 0 || len == 0)
    ensures DownState(m, j, len, flushed)
  {
    hide Down, Pended, Written;
    cdst, csrc, len := dst, src, n;
    while len >= 8
      invariant m.base == old(m.base) && m.image == old(m.image)
      invariant len <= n && cdst == j.d + len && csrc == j.s + len && (cdst % 8 == 0 || len == 0)
      invariant DownState(m, j, len, flushed)
    {
      WordDownStep(j, m.vol[..], m.stores, len);
      cdst, csrc := cdst - 8, csrc - 8;
      PendedFrame(j.p0, m.pending, m.vol[..], flushed, j.d + j.n, j.flags, cdst, m.vol[..][csrc..csrc + 8]);
      Cpy8(m, cdst, csrc);
      len := len - 8;
    }
  }

  /** Bytes after the last aligned destination address. */
  method TailDown(m: Memory, dst: nat, src: nat, n: nat, flags: bv32, ghost j: Job)
    returns (cnt: nat)
    requires flags == j.flags
    requires DownState(m, j, n, dst + n) && j.d == dst && j.s == src && j.n == n
    modifies m, m.vol
    ensures m.base == old(m.base) && m.image == old(m.image)
    ensures cnt <= n && ((dst + n - cnt) % 8 == 0 || cnt == n)
    ensures DownState(m, j, n - cnt, dst + n - cnt)
  {
    hide DownState, WordInside;
    cnt := (dst + n) % 8;
    if cnt > 0 {
      if cnt > n { cnt := n; }
      LastBytes(dst, n, cnt);
      BytesDown(m, dst + n - cnt, src + n - cnt, cnt, j, n, dst + n);
      FlushDown(m, dst + n - cnt, cnt, flags, j, n - cnt);
    }
  }

  /** The branch for overlapping ranges with the destination above the source. */
  method MoveBackward(m: Memory, dst: nat, src: nat, n: nat, flags: bv32)
    requires m.Valid() && dst + n <= m.vol.Length && src <= dst
    modifies m, m.vol
    ensures m.base == old(m.base) && m.image == old(m.image)
    ensures DownState(m, Job(old(m.vol[..]), old(m.stores), old(m.pending), flags, dst, src, n), 0, dst)
  {
    hide DownState, WordInside;
    ghost var j := Job(m.vol[..], m.stores, m.pending, flags, dst, src, n);
    DownStateStarts(m, dst, src, n, flags);
    var cnt := TailDown(m, dst, src, n, flags, j);
    var cdst, csrc, len := dst + n - cnt, src + n - cnt, n - cnt;
    cdst, csrc, len := BlocksDown(m, cdst, csrc, len, flags, j);
    var remaining := len;
    cdst, csrc, len := WordsDown(m, cdst, csrc, len, j, cdst);
    FirstBytes(dst, n, len);
    BytesDown(m, dst, src, len, j, len, dst + remaining);
    if remaining > 0 {
      FlushDown(m, dst, remaining, flags, j, 0);
    }
  }

  lemma DownStateStarts(m: Memory, dst: nat, src: nat, n: nat, flags: bv32)
    requires m.Valid() && dst + n <= m.vol.Length && src <= dst
    ensures DownState(m, Job(m.vol[..], m.stores, m.pending, flags, dst, src, n), n, dst + n)
  {
    hide Down, Pended;
    DownStarts(Job(m.vol[..], m.stores, m.pending, flags, dst, src, n));
    PendedStarts(m.pending, m.vol[..], dst + n, flags);
  }

  lemma DownStarts(j: Job)
    requires j.Fits()
    ensures Down(j, j.v0, j.log0, j.n)
  {
    assert j.v0[j.s + j.n..j.s + j.n] == [] && j.log0[|j.log0|..] == [];
  }

  lemma LastBytes(d: nat, n: nat, cnt: nat)
    requires cnt <= (d + n) % 8 && cnt <= n
    ensures forall a :: d + n - cnt <= a < d + n ==> !WordInside(a - a % 8, d, n)
  {}

  lemma FirstBytes(d: nat, n: nat, len: nat)
    requires len < 8 && len <= n && ((d + len) % 8 == 0 || len == 0)
    ensures forall a :: d <= a < d + len ==> !WordInside(a - a % 8, d, n)
  {}

  // ----- memmove

  const WRAP := 0x1_0000_0000_0000_0000

  /** The unsigned difference test goes upward exactly when the ranges allow it, but downward on equal addresses. */
  lemma DirectionIsSafe(d: nat, s: nat, n: nat, size: nat)
    requires d + n <= size && s + n <= size && size <= 0x1_0000_0000_0000_0000
    ensures (d - s) % WRAP >= n <==> (n == 0 || (UpSafe(d, s, n) && d != s))
    ensures (d - s) % WRAP < n ==> s <= d
  {
    if d >= s {
      assert (d - s) % WRAP == d - s || d - s == WRAP;
    } else {
      assert (d - s) % WRAP == WRAP + d - s;
    }
  }

  /** The whole effect of a call that writes `data` at `d`. */
  ghost predicate Effect(v0: seq<Byte>, v: seq<Byte>, log0: seq<Store>, log: seq<Store>,
                         p0: map<nat, Byte>, p: map<nat, Byte>, d: nat, data: seq<Byte>, flags: bv32)
  {
    && d + |data| <= |v0| && v == Written(v0, d, data)
    && Logged(log0, log, d, |data|, 0, |data|)
    && Pended(p0, p, v, d, d + |data|, flags)
  }

  /** memmove: the destination receives the original source bytes, however the ranges overlap. */
  method MemmoveNodrainGeneric(m: Memory, dst: nat, src: nat, len: nat, flags: bv32)
    requires m.Valid() && dst + len <= m.vol.Length && src + len <= m.vol.Length <= 0x1_0000_0000_0000_0000
    modifies m, m.vol
    ensures m.Valid() && m.base == old(m.base) && m.image == old(m.image)
    ensures Effect(old(m.vol[..]), m.vol[..], old(m.stores), m.stores, old(m.pending), m.pending,
                   dst, old(m.vol[..])[src..src + len], flags)
  {
    hide Up, Down, Pended, Written, Logged;
    ghost var j := Job(m.vol[..], m.stores, m.pending, flags, dst, src, len);
    DirectionIsSafe(dst, src, len, m.vol.Length);
    if (dst - src) % WRAP >= len {
      assert UpSafe(dst, src, len);
      MoveForward(m, dst, src, len, flags);
      UpIsDone(j, m.vol[..], m.stores);
    } else {
      MoveBackward(m, dst, src, len, flags);
      DownIsDone(j, m.vol[..], m.stores);
    }
  }

  lemma UpIsDone(j: Job, v: seq<Byte>, log: seq<Store>)
    requires Up(j, v, log, j.n)
    ensures j.Fits() && v == Written(j.v0, j.d, j.v0[j.s..j.s + j.n]) && Logged(j.log0, log, j.d, j.n, 0, j.n)
  {}

  lemma DownIsDone(j: Job, v: seq<Byte>, log: seq<Store>)
    requires Down(j, v, log, 0)
    ensures j.Fits() && v == Written(j.v0, j.d, j.v0[j.s..j.s + j.n]) && Logged(j.log0, log, j.d, j.n, 0, j.n)
  {}

  lemma {:induction false} ReplaySplit(base: seq<Byte>, a: seq<Store>, b: seq<Store>)
    requires InBounds(a, |base|) && InBounds(b, |base|)
    ensures InBounds(a + b, |base|) && Replay(base, a + b) == Replay(Replay(base, a), b)
    decreases |b|
  {
    if b == [] {
      assert a + b == a;
    } else {
      hide Replay, Written;
      var k := |b| - 1;
      ReplaySplit(base, a, b[..k]);
      ReplayOne(base, a + b[..k], b[k]);
      ReplayOne(Replay(base, a), b[..k], b[k]);
      assert b == b[..k] + [b[k]] && a + b == (a + b[..k]) + [b[k]];
    }
  }

  /**
   * At every point between two stores of a call on a memory whose log is complete, each whole
   * aligned word of the destination is wholly old or wholly new.
   */
  lemma CallIsWordAtomic(base: seq<Byte>, log0: seq<Store>, log: seq<Store>, p0: map<nat, Byte>, p: map<nat, Byte>,
                         d: nat, data: seq<Byte>, flags: bv32, w: nat, k: nat)
    requires InBounds(log0, |base|) && InBounds(log, |base|)
    requires Effect(Replay(base, log0), Replay(base, log), log0, log, p0, p, d, data, flags)
    requires WordInside(w, d, |data|) && |log0| <= k <= |log|
    ensures InBounds(log[..k], |base|)
    ensures var u := Replay(base, log[..k]);
      SameWord(u, Replay(base, log0), w) || SameWord(u, Replay(base, log), w)
  {
    hide *;
    var new_ := log[|log0|..];
    EffectParts(Replay(base, log0), Replay(base, log), log0, log, p0, p, d, data, flags);
    LogSplit(log0, log, k);
    BoundsParts(log, |log0|, |base|);
    BoundsParts(log, k, |base|);
    SuffixIsWordAtomic(base, log0, new_, d, |data|, w, k - |log0|);
  }

  lemma SuffixIsWordAtomic(base: seq<Byte>, a: seq<Store>, b: seq<Store>, d: nat, n: nat, w: nat, k: nat)
    requires InBounds(a, |base|) && InBounds(b, |base|) && d + n <= |base| && k <= |b|
    requires Tiles(b, d, d + n) && AllShaped(b, d, n) && WordInside(w, d, n)
    ensures InBounds(a + b, |base|) && InBounds(a + b[..k], |base|)
    ensures var u := Replay(base, a + b[..k]);
      SameWord(u, Replay(base, a), w) || SameWord(u, Replay(base, a + b), w)
  {
    hide *;
    BoundsParts(b, k, |base|);
    ReplaySplit(base, a, b);
    ReplaySplit(base, a, b[..k]);
    WordsAreAtomic(Replay(base, a), b, d, n, w, k);
  }

  lemma LogSplit(log0: seq<Store>, log: seq<Store>, k: nat)
    requires log0 <= log && |log0| <= k <= |log|
    ensures log == log0 + log[|log0|..] && log[..k] == log0 + log[|log0|..][..k - |log0|]
  {}

  lemma EffectParts(v0: seq<Byte>, v: seq<Byte>, log0: seq<Store>, log: seq<Store>,
                    p0: map<nat, Byte>, p: map<nat, Byte>, d: nat, data: seq<Byte>, flags: bv32)
    requires Effect(v0, v, log0, log, p0, p, d, data, flags)
    ensures d + |data| <= |v0| && log0 <= log
    ensures Tiles(log[|log0|..], d, d + |data|) && AllShaped(log[|log0|..], d, |data|)
  {
    hide Tiles, AllShaped, Pended, Written;
  }

  lemma BoundsParts(log: seq<Store>, a: nat, n: nat)
    requires InBounds(log, n) && a <= |log|
    ensures InBounds(log[..a], n) && InBounds(log[a..], n)
  {}

  // ----- memset

  function Repeat(c: Byte, n: nat): (s: seq<Byte>)
    ensures |s| == n
  {
    seq(n, _ => c)
  }

  /** The byte, copied into all eight places of a word. */
  function Replicate(u: bv64): (w: bv64) {
    (u << 56) | (u << 48) | (u << 40) | (u << 32) | (u << 24) | (u << 16) | (u << 8) | u
  }

  /** The bytes of a word in memory, least significant first. */
  function WordBytes(w: bv64): (s: seq<Byte>)
    ensures |s| == 8
  {
    [(w & 0xFF) as bv8, ((w >> 8) & 0xFF) as bv8, ((w >> 16) & 0xFF) as bv8, ((w >> 24) & 0xFF) as bv8,
     ((w >> 32) & 0xFF) as bv8, ((w >> 40) & 0xFF) as bv8, ((w >> 48) & 0xFF) as bv8, ((w >> 56) & 0xFF) as bv8]
  }

  lemma ReplicatePlaces(u: bv64)
    requires u <= 0xFF
    ensures var w := Replicate(u);
      && w & 0xFF == u && (w >> 8) & 0xFF == u && (w >> 16) & 0xFF == u && (w >> 24) & 0xFF == u
      && (w >> 32) & 0xFF == u && (w >> 40) & 0xFF == u && (w >> 48) & 0xFF == u && (w >> 56) & 0xFF == u
  {}

  lemma ReplicateBytes(c: Byte)
    ensures WordBytes(Replicate(c as bv64)) == Repeat(c, 8)
  {
    hide Replicate;
    var u := c as bv64;
    assert u <= 0xFF && u as bv8 == c;
    ReplicatePlaces(u);
  }

  /** The first `at` bytes are set and logged, and [d, flushed) is flushed; `j.s` plays no part. */
  ghost predicate SetState(m: Memory, j: Job, c: Byte, at: nat, flushed: nat)
    reads m, m.vol
  {
    && m.Valid() && |j.v0| == m.vol.Length && j.d + j.n <= |j.v0| && at <= j.n
    && m.vol[..] == Written(j.v0, j.d, Repeat(c, at))
    && Logged(j.log0, m.stores, j.d, j.n, 0, at)
    && j.d <= flushed <= j.d + at && Pended(j.p0, m.pending, m.vol[..], j.d, flushed, j.flags)
  }

  lemma SetMore(v0: seq<Byte>, d: nat, c: Byte, at: nat, len: nat)
    requires d + at + len <= |v0|
    ensures Written(Written(v0, d, Repeat(c, at)), d + at, Repeat(c, len)) == Written(v0, d, Repeat(c, at + len))
  {}

  method SetBytes(m: Memory, cdst: nat, c: Byte, cnt: nat, ghost j: Job, ghost at: nat, ghost flushed: nat)
    requires SetState(m, j, c, at, flushed) && cdst == j.d + at && at + cnt <= j.n
    requires forall a :: cdst <= a < cdst + cnt ==> !WordInside(a - a % 8, j.d, j.n)
    modifies m, m.vol
    ensures m.base == old(m.base) && m.image == old(m.image)
    ensures SetState(m, j, c, at + cnt, flushed)
  {
    hide SetState, WordInside;
    for i := 0 to cnt
      invariant m.base == old(m.base) && m.image == old(m.image)
      invariant SetState(m, j, c, at + i, flushed)
    {
      SetByte(m, cdst + i, c, j, at + i, flushed);
    }
  }

  method SetByte(m: Memory, d: nat, c: Byte, ghost j: Job, ghost at: nat, ghost flushed: nat)
    requires SetState(m, j, c, at, flushed) && d == j.d + at && at < j.n
    requires !WordInside(d - d % 8, j.d, j.n)
    modifies m, m.vol
    ensures m.base == old(m.base) && m.image == old(m.image)
    ensures SetState(m, j, c, at + 1, flushed)
  {
    hide Written, Logged, Pended, WordInside, Tiles;
    assert [c] == Repeat(c, 1);
    SetMore(j.v0, j.d, c, at, 1);
    TilesOne(Store(d, [c]));
    LogUp(j.log0, m.stores, [Store(d, [c])], j.d, j.n, 0, at, at + 1);
    PendedFrame(j.p0, m.pending, m.vol[..], j.d, flushed, j.flags, d, [c]);
    m.StoreByte(d, c);
  }

  method SetFlush(m: Memory, a: nat, n: nat, flags: bv32, ghost j: Job, ghost c: Byte, ghost at: nat)
    requires flags == j.flags
    requires SetState(m, j, c, at, a) && a + n <= j.d + at
    modifies m
    ensures m.base == old(m.base) && m.image == old(m.image)
    ensures SetState(m, j, c, at, a + n)
  {
    hide Written, Logged, Pended, Range, Flushes;
    PendedGrows(j.p0, m.pending, m.vol[..], j.d, a, a + n, flags);
    PmemFlushFlags(m, a, n, flags);
  }

  /** One `store8` of the replicated word. */
  method SetWord(m: Memory, d: nat, tmp: bv64, ghost j: Job, ghost c: Byte, ghost at: nat, ghost flushed: nat)
    requires SetState(m, j, c, at, flushed) && d == j.d + at && at + 8 <= j.n && d % 8 == 0
    requires tmp == Replicate(c as bv64)
    modifies m, m.vol
    ensures m.base == old(m.base) && m.image == old(m.image)
    ensures SetState(m, j, c, at + 8, flushed)
  {
    hide Written, Logged, Pended, Tiles, Replicate, WordBytes, Repeat;
    ReplicateBytes(c);
    var w := WordBytes(tmp);
    SetMore(j.v0, j.d, c, at, 8);
    TilesOne(Store(d, w));
    LogUp(j.log0, m.stores, [Store(d, w)], j.d, j.n, 0, at, at + 8);
    PendedFrame(j.p0, m.pending, m.vol[..], j.d, flushed, j.flags, d, w);
    m.Store8(d, w);
  }

  method SetBlocks(m: Memory, dst: nat, tmp: bv64, n: nat, flags: bv32, ghost j: Job, ghost c: Byte)
    returns (cdst: nat, len: nat)
    requires flags == j.flags
    requires n <= j.n && dst == j.d + j.n - n && (dst % 8 == 0 || n == 0) && tmp == Replicate(c as bv64)
    requires SetState(m, j, c, j.n - n, dst)
    modifies m, m.vol
    ensures m.base == old(m.base) && m.image == old(m.image)
    ensures len < 64 && len <= n && cdst == j.d + j.n - len && (cdst % 8 == 0 || len == 0)
    ensures SetState(m, j, c, j.n - len, cdst)
  {
    hide SetState, Replicate;
    cdst, len := dst, n;
    while len >= 64
      invariant m.base == old(m.base) && m.image == old(m.image)
      invariant len <= n && cdst == j.d + j.n - len && (cdst % 8 == 0 || len == 0)
      invariant SetState(m, j, c, j.n - len, cdst)
    {
      for i := 0 to 8
        invariant m.base == old(m.base) && m.image == old(m.image)
        invariant SetState(m, j, c, j.n - len + 8 * i, cdst)
      {
        SetWord(m, cdst + 8 * i, tmp, j, c, j.n - len + 8 * i, cdst);
      }
      SetFlush(m, cdst, 64, flags, j, c, j.n - len + 64);
      len, cdst := len - 64, cdst + 64;
    }
  }

  method SetWords(m: Memory, dst: nat, tmp: bv64, n: nat, ghost j: Job, ghost c: Byte, ghost flushed: nat)
    returns (cdst: nat, len: nat)
    requires n <= j.n && dst == j.d + j.n - n && (dst % 8 == 0 || n == 0) && tmp == Replicate(c as bv64)
    requires SetState(m, j, c, j.n - n, flushed)
    modifies m, m.vol
    ensures m.base == old(m.base) && m.image == old(m.image)
    ensures len < 8 && len <= n && cdst == j.d + j.n - len && (cdst % 8 == 0 || len == 0)
    ensures SetState(m, j, c, j.n - len, flushed)
  {
    hide SetState, Replicate;
    cdst, len := dst, n;
    while len >= 8
      invariant m.base == old(m.base) && m.image == old(m.image)
      invariant len <= n && cdst == j.d + j.n - len && (cdst % 8 == 0 || len == 0)
      invariant SetState(m, j, c, j.n - len, flushed)
    {
      SetWord(m, cdst, tmp, j, c, j.n - len, flushed);
      len, cdst := len - 8, cdst + 8;
    }
  }

  method SetHead(m: Memory, dst: nat, c: Byte, n: nat, flags: bv32, ghost j: Job)
    returns (cnt: nat)
    requires flags == j.flags
    requires SetState(m, j, c, 0, dst) && j.d == dst && j.n == n
    modifies m, m.vol
    ensures m.base == old(m.base) && m.image == old(m.image)
    ensures cnt <= n && ((dst + cnt) % 8 == 0 || cnt == n)
    ensures SetState(m, j, c, cnt, dst + cnt)
  {
    hide SetState, WordInside;
    cnt := dst % 8;
    if cnt > 0 {
      cnt := 8 - cnt;
      if cnt > n { cnt := n; }
      HeadBytes(dst, n, cnt);
      SetBytes(m, dst, c, cnt, j, 0, dst);
      SetFlush(m, dst, cnt, flags, j, c, cnt);
    }
  }

  /** memset: every destination byte becomes `(unsigned char) c`. */
  method MemsetNodrainGeneric(m: Memory, dst: nat, c: int, len0: nat, flags: bv32)
    requires m.Valid() && dst + len0 <= m.vol.Length
    modifies m, m.vol
    ensures m.Valid() && m.base == old(m.base) && m.image == old(m.image)
    ensures Effect(old(m.vol[..]), m.vol[..], old(m.stores), m.stores, old(m.pending), m.pending,
                   dst, Repeat((c % 256) as bv8, len0), flags)
  {
    hide SetState, WordInside, Replicate;
    var b := (c % 256) as bv8;
    ghost var j := Job(m.vol[..], m.stores, m.pending, flags, dst, 0, len0);
    SetStateStarts(m, dst, len0, b, flags);
    var cnt := SetHead(m, dst, b, len0, flags, j);
    var tmp := Replicate(b as bv64);
    var cdst, len := SetBlocks(m, dst + cnt, tmp, len0 - cnt, flags, j, b);
    var remaining := len;
    cdst, len := SetWords(m, cdst, tmp, len, j, b, cdst);
    TailBytes(dst, len0, cdst, len);
    SetBytes(m, cdst, b, len, j, len0 - len, dst + len0 - remaining);
    cdst := cdst + len;
    if remaining > 0 {
      SetFlush(m, cdst - remaining, remaining, flags, j, b, len0);
    }
    SetStateEnds(m, j, b);
  }

  lemma SetStateStarts(m: Memory, dst: nat, n: nat, c: Byte, flags: bv32)
    requires m.Valid() && dst + n <= m.vol.Length
    ensures SetState(m, Job(m.vol[..], m.stores, m.pending, flags, dst, 0, n), c, 0, dst)
  {
    hide Pended;
    assert m.stores[|m.stores|..] == [];
    PendedStarts(m.pending, m.vol[..], dst, flags);
  }

  lemma SetStateEnds(m: Memory, j: Job, c: Byte)
    requires SetState(m, j, c, j.n, j.d + j.n)
    ensures m.Valid()
    ensures Effect(j.v0, m.vol[..], j.log0, m.stores, j.p0, m.pending, j.d, Repeat(c, j.n), j.flags)
  {
    hide Written, Logged, Pended;
  }
}
