/** Rounding up to a power of two by bit tricks, and the address windows of DAX devices built on it. */
module DaxLayout {
  import opened Tiers

  /** Bitwise and, on numbers. */
  function And(a: nat, b: nat): (r: nat) {
    if a == 0 || b == 0 then 0
    else (if a % 2 == 1 && b % 2 == 1 then 1 else 0) + 2 * And(a / 2, b / 2)
  }

  /** The rightmost one bit. */
  function LowBit(n: nat): (b: nat)
    requires n > 0
    ensures 1 <= b <= n
  {
    if n % 2 == 1 then 1 else 2 * LowBit(n / 2)
  }

  lemma {:induction false} AndSame(n: nat)
    ensures And(n, n) == n
  {
    if n > 0 { AndSame(n / 2); }
  }

  /** n & (n - 1) clears the rightmost one bit. */
  lemma {:induction false} AndPredecessor(n: nat)
    requires n > 0
    ensures And(n, n - 1) == n - LowBit(n)
  {
    var k := n / 2;
    if n % 2 == 1 {
      AndSame(k);
      assert (n - 1) / 2 == k && (n - 1) % 2 == 0;
    } else {
      AndPredecessor(k);
      assert (n - 1) / 2 == k - 1 && (n - 1) % 2 == 1;
    }
  }

  /** A number and its complement have no bit in common. */
  lemma {:induction false} AndComplement(n: nat, w: nat)
    requires n < Pow2(w)
    ensures And(n, Pow2(w) - 1 - n) == 0
  {
    if w > 0 {
      var c := Pow2(w) - 1 - n;
      AndComplement(n / 2, w - 1);
      assert c / 2 == Pow2(w - 1) - 1 - n / 2 && c % 2 == 1 - n % 2;
    }
  }

  /** n & -n, in `w`-bit arithmetic, is the rightmost one bit. */
  lemma {:induction false} AndNegated(n: nat, w: nat)
    requires 0 < n < Pow2(w)
    ensures And(n, Pow2(w) - n) == LowBit(n)
  {
    var k, c := n / 2, Pow2(w) - n;
    if n % 2 == 1 {
      AndComplement(k, w - 1);
      assert c / 2 == Pow2(w - 1) - 1 - k && c % 2 == 1;
    } else {
      AndNegated(k, w - 1);
      assert c / 2 == Pow2(w - 1) - k && c % 2 == 0;
    }
  }

  ghost predicate IsPow2(n: nat) { exists p: nat :: n == Pow2(p) }

  lemma HalfPow2(n: nat)
    requires n % 2 == 0 && n > 0
    ensures IsPow2(n) <==> IsPow2(n / 2)
  {
    if IsPow2(n) {
      var p: nat :| n == Pow2(p);
      assert p > 0 && n / 2 == Pow2(p - 1);
    }
    if IsPow2(n / 2) {
      var p: nat :| n / 2 == Pow2(p);
      assert n == Pow2(p + 1);
    }
  }

  lemma OddPow2(n: nat)
    requires n % 2 == 1
    ensures IsPow2(n) <==> n == 1
  {
    if n == 1 { assert n == Pow2(0); }
    if IsPow2(n) { var p: nat :| n == Pow2(p); }
  }

  /** At most one bit set, and not zero: a power of two. */
  lemma {:induction false} SingleBit(n: nat)
    requires n > 0
    ensures n == LowBit(n) <==> IsPow2(n)
  {
    if n % 2 == 1 { OddPow2(n); } else { SingleBit(n / 2); HalfPow2(n); }
  }

  /** Adding the rightmost bit to a number that is no power of two passes no power of two. */
  lemma {:induction false} NoneSkipped(n: nat, p: nat)
    requires n > 0 && !IsPow2(n) && IsPow2(p) && n <= p
    ensures n + LowBit(n) <= p
  {
    hide IsPow2;
    if n % 2 == 0 {
      if p % 2 == 1 { OddPow2(p); }
      HalfPow2(n);
      HalfPow2(p);
      NoneSkipped(n / 2, p / 2);
    }
  }

  const WORD := 0x1_0000_0000_0000_0000
  const TOP := 0x8000_0000_0000_0000

  lemma FourDoublings(a: nat)
    ensures Pow2(a + 4) == 16 * Pow2(a)
  {
    assert Pow2(a + 4) == 2 * Pow2(a + 3) && Pow2(a + 3) == 2 * Pow2(a + 2);
    assert Pow2(a + 2) == 2 * Pow2(a + 1) && Pow2(a + 1) == 2 * Pow2(a);
  }

  lemma SixteenDoublings(a: nat)
    ensures Pow2(a + 16) == 0x1_0000 * Pow2(a)
  {
    hide Pow2;
    FourDoublings(a);
    FourDoublings(a + 4);
    FourDoublings(a + 8);
    FourDoublings(a + 12);
  }

  lemma WordIsPow2()
    ensures Pow2(63) == TOP && Pow2(64) == WORD
  {
    assert Pow2(0) == 1 && Pow2(64) == 2 * Pow2(63);
    hide Pow2;
    SixteenDoublings(0);
    SixteenDoublings(16);
    SixteenDoublings(32);
    SixteenDoublings(48);
  }

  /** `r` is the least power of two that is at least `n`. */
  ghost predicate IsRoundUp(r: nat, n: nat) {
    IsPow2(r) && n <= r && forall p :: IsPow2(p) && n <= p ==> r <= p
  }

  lemma RoundUpUnique(r: nat, q: nat, n: nat)
    requires IsRoundUp(r, n) && IsRoundUp(q, n)
    ensures r == q
  {
    hide IsPow2;
  }

  /** Zero stays zero, up to 2^63 the least power of two is found, and above it the sum wraps to zero. */
  method RoundUpToPow2(size: nat) returns (n: nat)
    requires size < WORD
    ensures n < WORD && (0 < size <= TOP ==> IsRoundUp(n, size))
    ensures size == 0 || size > TOP ==> n == 0
  {
    hide IsPow2;
    n := size;
    Powers();
    while And(n, (n - 1) % WORD) != 0
      invariant n < WORD
      invariant n == 0 ==> size == 0 || size > TOP
      invariant n > 0 ==> n >= size > 0 && forall p :: IsPow2(p) && size <= p ==> n <= p
      decreases if n == 0 then 0 else WORD - n
    {
      if n > 0 {
        Bits(n);
        forall p | IsPow2(p) && size <= p ensures n + LowBit(n) <= p { NoneSkipped(n, p); }
        assert n + LowBit(n) <= WORD;
      }
      n := (n + And(n, (0 - n) % WORD)) % WORD;
    }
    if n > 0 { Bits(n); }
    if size > TOP && n > 0 { Between(n); }
  }

  lemma Powers()
    ensures IsPow2(TOP) && IsPow2(WORD)
  {
    WordIsPow2();
    assert TOP == Pow2(63) && WORD == Pow2(64);
  }

  /** The two bit expressions of the loop, for a nonzero word. */
  lemma Bits(n: nat)
    requires 0 < n < WORD
    ensures And(n, (n - 1) % WORD) == n - LowBit(n) && And(n, (0 - n) % WORD) == LowBit(n)
    ensures And(n, (n - 1) % WORD) == 0 <==> IsPow2(n)
  {
    hide IsPow2, And, LowBit, Pow2;
    WordIsPow2();
    AndPredecessor(n);
    AndNegated(n, 64);
    SingleBit(n);
    assert (0 - n) % WORD == WORD - n;
  }

  /** No power of two lies strictly between 2^63 and 2^64. */
  lemma Between(n: nat)
    requires IsPow2(n)
    ensures n <= TOP || WORD <= n
  {
    WordIsPow2();
    var p: nat :| n == Pow2(p);
    if p <= 63 { Pow2Mono(p, 63); } else { Pow2Mono(64, p); }
  }

  // ----- device windows

  const UNSIGNED := 0x1_0000_0000

  type Unsigned = n: nat | n < UNSIGNED
  type Size = n: nat | n < WORD

  /** A device "/dev/dax<first>.<second>". */
  datatype Device = Device(first: Unsigned, second: Unsigned)

  /** `second + 1` in 32 bits: the last device number counts as none. */
  function Counted(d: Device): (n: Unsigned) { (d.second + 1) % UNSIGNED }

  ghost predicate IsMaxSize(m: map<nat, Device>, sizeOf: Device -> Size, size: nat) {
    && (forall c :: c in m ==> sizeOf(m[c]) <= size)
    && (size == 0 || exists c :: c in m && sizeOf(m[c]) == size)
  }

  ghost predicate IsMaxCount(m: map<nat, Device>, count: nat) {
    && (forall c :: c in m ==> Counted(m[c]) <= count)
    && (count == 0 || exists c :: c in m && Counted(m[c]) == count)
  }

  /** The largest size of any device in the map, or zero. */
  method DevDaxMaxSize(m: map<nat, Device>, sizeOf: Device -> Size) returns (size: Size)
    ensures IsMaxSize(m, sizeOf, size)
  {
    size := 0;
    var todo := m.Keys;
    while todo != {}
      invariant todo <= m.Keys
      invariant forall c :: c in m && c !in todo ==> sizeOf(m[c]) <= size
      invariant size == 0 || exists c :: c in m && sizeOf(m[c]) == size
      decreases |todo|
    {
      var c :| c in todo;
      if size < sizeOf(m[c]) { size := sizeOf(m[c]); }
      todo := todo - {c};
    }
  }

  /** The counters are indexed by core, not by node; each core is met once, so its counter was a fresh zero. */
  method CountDevices(m: map<nat, Device>) returns (devCount: map<nat, Unsigned>)
    ensures devCount.Keys == m.Keys && forall c :: c in m ==> devCount[c] == Counted(m[c])
  {
    hide Counted;
    devCount := map[];
    var todo := m.Keys;
    while todo != {}
      invariant todo <= m.Keys
      invariant devCount.Keys == m.Keys - todo
      invariant forall c :: c in devCount ==> devCount[c] == Counted(m[c])
      decreases |todo|
    {
      var c :| c in todo;
      devCount := devCount[c := Counted(m[c])];
      todo := todo - {c};
    }
  }

  /** What a count says of the numbers themselves: the largest plus one, as long as none is the last 32-bit number. */
  lemma CountMeans(m: map<nat, Device>, count: nat)
    requires IsMaxCount(m, count)
    ensures count == 0 <==> forall c :: c in m ==> m[c].second == 4294967295
    ensures (forall c :: c in m ==> m[c].second < 4294967295) ==>
      && (forall c :: c in m ==> m[c].second + 1 <= count)
      && (m != map[] ==> exists c :: c in m && m[c].second + 1 == count)
  {
    if m != map[] {
      var c :| c in m;
      assert Counted(m[c]) <= count;
    }
  }

  /** The largest counter of any core is also the largest of any node. */
  method DevDaxMaxCountPerNode(m: map<nat, Device>) returns (size: Unsigned)
    ensures IsMaxCount(m, size)
    ensures m == map[] ==> size == 0
    ensures (forall c :: c in m ==> m[c].second < 4294967295) ==>
      && (forall c :: c in m ==> m[c].second + 1 <= size)
      && (m != map[] ==> exists c :: c in m && m[c].second + 1 == size)
  {
    hide Counted;
    var devCount := CountDevices(m);
    size := 0;
    var todo := devCount.Keys;
    while todo != {}
      invariant todo <= m.Keys
      invariant forall c :: c in m && c !in todo ==> Counted(m[c]) <= size
      invariant size == 0 || exists c :: c in m && Counted(m[c]) == size
      decreases |todo|
    {
      var c :| c in todo;
      if size < devCount[c] { size := devCount[c]; }
      todo := todo - {c};
    }
    CountMeans(m, size);
  }

  const DAX_BASE := 0x70_0000_0000

  /** The place of a device, counted in strides. */
  function Place(slots: nat, d: Device): (n: nat) { slots * d.first + d.second }

  function Address(stride: nat, slots: nat, d: Device): (a: nat) { DAX_BASE + stride * Place(slots, d) }

  ghost predicate RoundsTo(n: nat, r: nat) { if 0 < n <= TOP then IsRoundUp(r, n) else r == 0 }

  ghost predicate StridesFrom(m: map<nat, Device>, sizeOf: Device -> Size,
                              size: nat, count: nat, stride: nat, slots: nat)
  {
    IsMaxSize(m, sizeOf, size) && IsMaxCount(m, count) && RoundsTo(size, stride) && RoundsTo(count, slots)
  }

  /** The stride and the number of places per node that every core of the map computes. */
  ghost predicate Strides(m: map<nat, Device>, sizeOf: Device -> Size, stride: nat, slots: nat) {
    exists size: nat, count: nat :: StridesFrom(m, sizeOf, size, count, stride, slots)
  }

  /** Where a core's device is mapped, every product and sum taken in 64 bits. */
  method DeviceAddress(m: map<nat, Device>, sizeOf: Device -> Size, core: nat)
    returns (addr: Size, stride: Size, slots: Size)
    requires core in m
    ensures Strides(m, sizeOf, stride, slots) && addr == Address(stride, slots, m[core]) % WORD
    ensures addr == (0x7000000000 + stride * slots * m[core].first + stride * m[core].second) % 0x1_0000_0000_0000_0000
  {
    hide IsRoundUp;
    var size := DevDaxMaxSize(m, sizeOf);
    stride := RoundUpToPow2(size);
    var count := DevDaxMaxCountPerNode(m);
    slots := RoundUpToPow2(count);
    assert StridesFrom(m, sizeOf, size, count, stride, slots);
    var nodeStride := slots * stride % WORD;
    addr := (DAX_BASE + nodeStride * m[core].first + stride * m[core].second) % WORD;
    ReducedAddress(stride, slots, m[core]);
    Regroup(stride, slots, m[core].first, m[core].second);
  }

  lemma ReducedAddress(stride: nat, slots: nat, d: Device)
    ensures (DAX_BASE + slots * stride % WORD * d.first + stride * d.second) % WORD == Address(stride, slots, d) % WORD
  {
    var p, f := slots * stride, d.first;
    var q, r := p / WORD, p % WORD;
    assert p == WORD * q + r;
    assert p * f == WORD * (q * f) + r * f by { assert (WORD * q + r) * f == WORD * q * f + r * f; }
    assert stride * (slots * f + d.second) == p * f + stride * d.second by { Regroup(stride, slots, f, d.second); }
    Shifted(DAX_BASE + r * f + stride * d.second, q * f);
  }

  lemma Regroup(a: nat, b: nat, c: nat, d: nat)
    ensures a * (b * c + d) == b * a * c + a * d
  {
    assert a * (b * c + d) == a * (b * c) + a * d;
    assert a * (b * c) == b * a * c;
  }

  lemma Shifted(n: nat, k: nat)
    ensures (n + WORD * k) % WORD == n % WORD
  {
    var q, r := n / WORD, n % WORD;
    assert n + WORD * k == WORD * (q + k) + r;
  }

  lemma MaxUnique(m: map<nat, Device>, sizeOf: Device -> Size, size: nat, size': nat, count: nat, count': nat)
    requires IsMaxSize(m, sizeOf, size) && IsMaxSize(m, sizeOf, size') && IsMaxCount(m, count) && IsMaxCount(m, count')
    ensures size == size' && count == count'
  {
    hide Counted;
  }

  /** All cores compute the same strides. */
  lemma StridesUnique(m: map<nat, Device>, sizeOf: Device -> Size, stride: nat, slots: nat, stride': nat, slots': nat)
    requires Strides(m, sizeOf, stride, slots) && Strides(m, sizeOf, stride', slots')
    ensures stride == stride' && slots == slots'
  {
    hide IsRoundUp, IsMaxSize, IsMaxCount;
    var size: nat, count: nat :| StridesFrom(m, sizeOf, size, count, stride, slots);
    var size': nat, count': nat :| StridesFrom(m, sizeOf, size', count', stride', slots');
    MaxUnique(m, sizeOf, size, size', count, count');
    if 0 < size <= TOP { RoundUpUnique(stride, stride', size); }
    if 0 < count <= TOP { RoundUpUnique(slots, slots', count); }
  }

  // ----- which windows overlap

  predicate Disjoint(a: nat, n: nat, b: nat, k: nat) { a + n <= b || b + k <= a }

  /** No two different devices of the map share a byte. */
  ghost predicate AllDisjoint(m: map<nat, Device>, sizeOf: Device -> Size, stride: nat, slots: nat) {
    forall c, e :: c in m && e in m && m[c] != m[e] ==>
      Disjoint(Address(stride, slots, m[c]), sizeOf(m[c]), Address(stride, slots, m[e]), sizeOf(m[e]))
  }

  /** The stride is defined, and no two different devices with any memory have the same place. */
  ghost predicate PlacesDiffer(m: map<nat, Device>, sizeOf: Device -> Size, stride: nat, slots: nat) {
    forall c, e :: c in m && e in m && m[c] != m[e] && sizeOf(m[c]) > 0 && sizeOf(m[e]) > 0 ==>
      stride > 0 && Place(slots, m[c]) != Place(slots, m[e])
  }

  /** The windows of any map are disjoint if and only if the places of its devices differ. */
  lemma WindowsDisjointIff(m: map<nat, Device>, sizeOf: Device -> Size, stride: nat, slots: nat)
    requires Strides(m, sizeOf, stride, slots)
    ensures AllDisjoint(m, sizeOf, stride, slots) <==> PlacesDiffer(m, sizeOf, stride, slots)
  {
    hide IsRoundUp, Address, Place, Disjoint;
    var size: nat, count: nat :| StridesFrom(m, sizeOf, size, count, stride, slots);
    assert stride > 0 ==> size <= stride by { if 0 < size <= TOP { RoundedEnough(size, stride); } }
    forall c, e | c in m && e in m && m[c] != m[e]
      ensures Disjoint(Address(stride, slots, m[c]), sizeOf(m[c]), Address(stride, slots, m[e]), sizeOf(m[e]))
              <==> (sizeOf(m[c]) > 0 && sizeOf(m[e]) > 0 ==> stride > 0 && Place(slots, m[c]) != Place(slots, m[e]))
    {
      assert stride > 0 ==> sizeOf(m[c]) <= stride && sizeOf(m[e]) <= stride;
      TwoWindows(stride, slots, m[c], m[e], sizeOf(m[c]), sizeOf(m[e]));
    }
  }

  lemma RoundedEnough(n: nat, r: nat)
    requires IsRoundUp(r, n)
    ensures n <= r
  {
    hide IsPow2;
  }

  lemma TwoWindows(stride: nat, slots: nat, d: Device, e: Device, n: nat, k: nat)
    requires stride > 0 ==> n <= stride && k <= stride
    ensures Disjoint(Address(stride, slots, d), n, Address(stride, slots, e), k)
            <==> (n > 0 && k > 0 ==> stride > 0 && Place(slots, d) != Place(slots, e))
  {
    hide Place;
    var a, b := Place(slots, d), Place(slots, e);
    if stride > 0 {
      if a < b { MulAtLeast(b, a + 1, stride); } else if b < a { MulAtLeast(a, b + 1, stride); }
    }
  }

  lemma MulAtLeast(a: nat, b: nat, n: nat)
    requires a >= b
    ensures n * a >= n * b
  {}

  /** Below the last 32-bit number, different devices have different places. */
  lemma PlacesDistinct(m: map<nat, Device>, sizeOf: Device -> Size, stride: nat, slots: nat, c: nat, e: nat)
    requires Strides(m, sizeOf, stride, slots) && c in m && e in m && m[c] != m[e]
    requires m[c].second < UNSIGNED - 1 && m[e].second < UNSIGNED - 1
    ensures Place(slots, m[c]) != Place(slots, m[e])
  {
    hide IsRoundUp, Place;
    var size: nat, count: nat :| StridesFrom(m, sizeOf, size, count, stride, slots);
    assert m[c].second + 1 == Counted(m[c]) <= count && m[e].second + 1 == Counted(m[e]) <= count;
    assert count < UNSIGNED by { CountFits(m, count); }
    RoundedEnough(count, slots);
    PlaceDistinct(slots, m[c], m[e]);
  }

  lemma PlaceDistinct(slots: nat, d: Device, e: Device)
    requires d != e && d.second < slots && e.second < slots
    ensures Place(slots, d) != Place(slots, e)
  {
    if d.first < e.first { MulAtLeast(e.first, d.first + 1, slots); }
    if e.first < d.first { MulAtLeast(d.first, e.first + 1, slots); }
  }

  lemma CountFits(m: map<nat, Device>, count: nat)
    requires IsMaxCount(m, count)
    ensures count < UNSIGNED
  {}

  /** With sizes up to 2^63 and device numbers below 2^32 - 1, all windows are disjoint. */
  lemma WindowsDisjoint(m: map<nat, Device>, sizeOf: Device -> Size, stride: nat, slots: nat)
    requires Strides(m, sizeOf, stride, slots)
    requires forall c :: c in m ==> sizeOf(m[c]) <= 0x8000_0000_0000_0000 && m[c].second < 4294967295
    ensures AllDisjoint(m, sizeOf, stride, slots)
  {
    hide AllDisjoint, IsRoundUp, Place;
    var size: nat, count: nat :| StridesFrom(m, sizeOf, size, count, stride, slots);
    forall c, e | c in m && e in m && m[c] != m[e] && sizeOf(m[c]) > 0
      ensures stride > 0 && Place(slots, m[c]) != Place(slots, m[e])
    {
      RoundedEnough(size, stride);
      PlacesDistinct(m, sizeOf, stride, slots, c, e);
    }
    WindowsDisjointIff(m, sizeOf, stride, slots);
  }

  /** If no window ends above 2^64, the addresses the cores use are apart as well. */
  lemma AddressesDisjoint(m: map<nat, Device>, sizeOf: Device -> Size, stride: nat, slots: nat, c: nat, e: nat)
    requires AllDisjoint(m, sizeOf, stride, slots) && c in m && e in m && m[c] != m[e]
    requires Address(stride, slots, m[c]) + sizeOf(m[c]) <= WORD && Address(stride, slots, m[e]) + sizeOf(m[e]) <= WORD
    ensures var a, b := Address(stride, slots, m[c]) % WORD, Address(stride, slots, m[e]) % WORD;
      Disjoint(a, sizeOf(m[c]), b, sizeOf(m[e]))
  {
    hide Address;
    var a, b := Address(stride, slots, m[c]), Address(stride, slots, m[e]);
    assert Disjoint(a, sizeOf(m[c]), b, sizeOf(m[e]));
  }

  /** Two nodes whose only device has the last number: the count wraps to none and the windows coincide. */
  lemma LastNumberCollides(size: Size)
    requires 0 < size <= TOP
    ensures var m := map[0 := Device(0, 4294967295), 1 := Device(1, 4294967295)];
      exists stride: nat :: Strides(m, Same(size), stride, 0) && !AllDisjoint(m, Same(size), stride, 0)
  {
    hide IsRoundUp;
    var m := map[0 := Device(0, 4294967295), 1 := Device(1, 4294967295)];
    var stride := RoundUp(size);
    assert Counted(m[0]) == Counted(m[1]) == 0;
    assert Same(size)(m[0]) == size;
    assert StridesFrom(m, Same(size), size, 0, stride, 0);
    assert Place(0, m[0]) == Place(0, m[1]);
    assert m[0] != m[1] && !AllDisjoint(m, Same(size), stride, 0);
  }

  function Same(size: Size): (f: Device -> Size) { _ => size }

  /** Every size up to 2^63 has a rounding. */
  lemma RoundUp(size: nat) returns (r: nat)
    requires 0 < size <= TOP
    ensures IsRoundUp(r, size)
  {
    hide IsPow2;
    Powers();
    r := TOP;
    while exists p: nat :: IsPow2(p) && size <= p < r
      invariant IsPow2(r) && size <= r
      decreases r
    {
      var p: nat :| IsPow2(p) && size <= p < r;
      r := p;
    }
  }

  /** All maps with device numbers up to `k` are laid out disjointly. */
  ghost predicate SafeUpTo(k: Unsigned) {
    forall m: map<nat, Device>, sizeOf: Device -> Size, stride: nat, slots: nat ::
      Strides(m, sizeOf, stride, slots) && (forall c :: c in m ==> sizeOf(m[c]) <= TOP && m[c].second <= k)
      ==> AllDisjoint(m, sizeOf, stride, slots)
  }

  /** The last 32-bit number is the only one that does harm. */
  lemma SafeUpToIff(k: Unsigned)
    ensures SafeUpTo(k) <==> k < 4294967295
  {
    hide Strides, AllDisjoint;
    if k < 4294967295 {
      forall m: map<nat, Device>, sizeOf: Device -> Size, stride: nat, slots: nat
        | Strides(m, sizeOf, stride, slots) && forall c :: c in m ==> sizeOf(m[c]) <= TOP && m[c].second <= k
        ensures AllDisjoint(m, sizeOf, stride, slots)
      {
        WindowsDisjoint(m, sizeOf, stride, slots);
      }
    } else {
      LastNumberCollides(1);
    }
  }
}
