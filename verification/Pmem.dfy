/** The public copy and set operations of libpmem, and when their result is durable. */
module Pmem {
  import opened PmemModel
  import opened MemOps

  /** The persistent image of the range equals its volatile content. */
  ghost predicate Durable(image: seq<Byte>, v: seq<Byte>, a: nat, n: nat) {
    a + n <= |image| == |v| && image[a..a + n] == v[a..a + n]
  }

  /** Pending bytes that have not been written since they were flushed arrive as they are. */
  lemma DrainedRange(image: seq<Byte>, image': seq<Byte>, p: map<nat, Byte>, v: seq<Byte>, a: nat, n: nat)
    requires |image| == |image'| == |v| && a + n <= |v|
    requires forall x :: a <= x < a + n ==> x in p && p[x] == v[x]
    requires forall x :: 0 <= x < |image| ==> image'[x] == if x in p then p[x] else image[x]
    ensures Durable(image', v, a, n)
  {}

  /** Everything pending has arrived, and nothing else has changed. */
  ghost predicate Arrived(image: seq<Byte>, p: map<nat, Byte>, image': seq<Byte>) {
    |image'| == |image| && forall x :: 0 <= x < |image| ==> image'[x] == if x in p then p[x] else image[x]
  }

  /** What is pending after the range has been flushed on top of `p`. */
  ghost function Flushed(p: map<nat, Byte>, v: seq<Byte>, a: nat, n: nat): (q: map<nat, Byte>)
    requires a + n <= |v|
    ensures forall x :: x in q <==> x in p || a <= x < a + n
    ensures forall x :: x in q ==> q[x] == if a <= x < a + n then v[x] else p[x]
  {
    p + map x | a <= x < a + n :: v[x]
  }

  lemma FlushedIs(p0: map<nat, Byte>, p: map<nat, Byte>, v: seq<Byte>, a: nat, n: nat, flags: bv32)
    requires Pended(p0, p, v, a, a + n, flags)
    ensures Flushes(flags) ==> p == Flushed(p0, v, a, n)
    ensures !Flushes(flags) ==> p == p0
  {
    hide Flushes;
  }

  method PmemPersist(m: Memory, a: nat, n: nat)
    requires m.Valid() && a + n <= m.vol.Length
    modifies m
    ensures m.Valid() && m.stores == old(m.stores) && m.base == old(m.base)
    ensures Durable(m.image, m.vol[..], a, n)
    ensures m.pending == map[] && Arrived(old(m.image), Flushed(old(m.pending), m.vol[..], a, n), m.image)
  {
    m.Flush(a, n);
    ghost var p, before := m.pending, m.image;
    assert p == Flushed(old(m.pending), m.vol[..], a, n);
    m.Drain();
    DrainedRange(before, m.image, p, m.vol[..], a, n);
  }

  lemma FlagsKeepNoflush(flags: bv32)
    ensures Flushes(flags & !NODRAIN) <==> flags & 0x20 == 0
    ensures flags & (NODRAIN | NOFLUSH) == 0 <==> flags & 0x01 == 0 && flags & 0x20 == 0
  {}

  /**
   * What a call with these flags leaves to arrive, and what has arrived: without NOFLUSH (32) the range is
   * flushed, and without NODRAIN (1) either it has arrived, with all that was pending before.
   */
  ghost predicate Settled(flags: bv32, p0: map<nat, Byte>, p: map<nat, Byte>, image0: seq<Byte>, image: seq<Byte>,
                          v: seq<Byte>, a: nat, n: nat)
  {
    && a + n <= |v|
    && if flags & 0x20 != 0 then p == p0 && image == image0
       else if flags & 0x01 != 0 then p == Flushed(p0, v, a, n) && image == image0
       else p == map[] && Arrived(image0, Flushed(p0, v, a, n), image) && Durable(image, v, a, n)
  }

  /** `pmem_drain`, if the flags ask for it, after the range has been flushed or not. */
  method DrainByFlags(m: Memory, a: nat, n: nat, flags: bv32, ghost p0: map<nat, Byte>)
    requires m.Valid() && Pended(p0, m.pending, m.vol[..], a, a + n, flags & !NODRAIN)
    modifies m
    ensures m.Valid() && m.stores == old(m.stores) && m.base == old(m.base)
    ensures Settled(flags, p0, m.pending, old(m.image), m.image, m.vol[..], a, n)
  {
    FlushedIs(p0, m.pending, m.vol[..], a, n, flags & !NODRAIN);
    FlagsKeepNoflush(flags);
    hide Pended, Flushes, Flushed;
    if flags & (NODRAIN | NOFLUSH) == 0 {
      ghost var p, before := m.pending, m.image;
      m.Drain();
      DrainedRange(before, m.image, p, m.vol[..], a, n);
    }
  }

  /** pmem_memmove and pmem_memcpy: durable on return unless a flag gives that up. */
  method PmemMemmove(m: Memory, dst: nat, src: nat, len: nat, flags: bv32)
    requires m.Valid() && dst + len <= m.vol.Length && src + len <= m.vol.Length <= 0x1_0000_0000_0000_0000
    modifies m, m.vol
    ensures m.Valid()
    ensures m.vol[..] == Written(old(m.vol[..]), dst, old(m.vol[..])[src..src + len])
    ensures Logged(old(m.stores), m.stores, dst, len, 0, len)
    ensures Settled(flags, old(m.pending), m.pending, old(m.image), m.image, m.vol[..], dst, len)
  {
    hide Written, Logged, Pended, Settled;
    ghost var p0 := m.pending;
    MemmoveNodrainGeneric(m, dst, src, len, flags & !NODRAIN);
    DrainByFlags(m, dst, len, flags, p0);
  }

  /** pmem_memmove_nodrain and pmem_memcpy_nodrain. */
  method PmemMemmoveNodrain(m: Memory, dst: nat, src: nat, len: nat)
    requires m.Valid() && dst + len <= m.vol.Length && src + len <= m.vol.Length <= 0x1_0000_0000_0000_0000
    modifies m, m.vol
    ensures m.Valid()
    ensures m.vol[..] == Written(old(m.vol[..]), dst, old(m.vol[..])[src..src + len])
    ensures Logged(old(m.stores), m.stores, dst, len, 0, len)
    ensures m.image == old(m.image) && m.pending == Flushed(old(m.pending), m.vol[..], dst, len)
  {
    hide Written, Logged, Pended;
    ghost var p0 := m.pending;
    MemmoveNodrainGeneric(m, dst, src, len, 0);
    FlushedIs(p0, m.pending, m.vol[..], dst, len, 0);
  }

  method PmemMemmovePersist(m: Memory, dst: nat, src: nat, len: nat)
    requires m.Valid() && dst + len <= m.vol.Length && src + len <= m.vol.Length <= 0x1_0000_0000_0000_0000
    modifies m, m.vol
    ensures m.Valid()
    ensures m.vol[..] == Written(old(m.vol[..]), dst, old(m.vol[..])[src..src + len])
    ensures Logged(old(m.stores), m.stores, dst, len, 0, len)
    ensures Settled(0, old(m.pending), m.pending, old(m.image), m.image, m.vol[..], dst, len)
  {
    hide Written, Logged, Pended, Settled;
    ghost var p0 := m.pending;
    MemmoveNodrainGeneric(m, dst, src, len, 0);
    DrainByFlags(m, dst, len, 0, p0);
  }

  /** pmem_memset. */
  method PmemMemset(m: Memory, dst: nat, c: int, len: nat, flags: bv32)
    requires m.Valid() && dst + len <= m.vol.Length
    modifies m, m.vol
    ensures m.Valid()
    ensures m.vol[..] == Written(old(m.vol[..]), dst, Repeat((c % 256) as bv8, len))
    ensures Logged(old(m.stores), m.stores, dst, len, 0, len)
    ensures Settled(flags, old(m.pending), m.pending, old(m.image), m.image, m.vol[..], dst, len)
  {
    hide Written, Logged, Pended, Settled;
    ghost var p0 := m.pending;
    MemsetNodrainGeneric(m, dst, c, len, flags & !NODRAIN);
    DrainByFlags(m, dst, len, flags, p0);
  }

  /** pmem_memset_nodrain. */
  method PmemMemsetNodrain(m: Memory, dst: nat, c: int, len: nat)
    requires m.Valid() && dst + len <= m.vol.Length
    modifies m, m.vol
    ensures m.Valid()
    ensures m.vol[..] == Written(old(m.vol[..]), dst, Repeat((c % 256) as bv8, len))
    ensures Logged(old(m.stores), m.stores, dst, len, 0, len)
    ensures m.image == old(m.image) && m.pending == Flushed(old(m.pending), m.vol[..], dst, len)
  {
    hide Written, Logged, Pended;
    ghost var p0 := m.pending;
    MemsetNodrainGeneric(m, dst, c, len, 0);
    FlushedIs(p0, m.pending, m.vol[..], dst, len, 0);
  }

  method PmemMemsetPersist(m: Memory, dst: nat, c: int, len: nat)
    requires m.Valid() && dst + len <= m.vol.Length
    modifies m, m.vol
    ensures m.Valid()
    ensures m.vol[..] == Written(old(m.vol[..]), dst, Repeat((c % 256) as bv8, len))
    ensures Logged(old(m.stores), m.stores, dst, len, 0, len)
    ensures Settled(0, old(m.pending), m.pending, old(m.image), m.image, m.vol[..], dst, len)
  {
    hide Written, Logged, Pended, Settled;
    ghost var p0 := m.pending;
    MemsetNodrainGeneric(m, dst, c, len, 0);
    DrainByFlags(m, dst, len, 0, p0);
  }

  /**
   * Whatever the flags but NOFLUSH: once the caller drains, now or later, the range is durable, unless it
   * has been stored to again.
   */
  lemma LaterDrainSettles(flags: bv32, p0: map<nat, Byte>, p: map<nat, Byte>, image0: seq<Byte>, image: seq<Byte>,
                          v: seq<Byte>, a: nat, n: nat, image': seq<Byte>)
    requires Settled(flags, p0, p, image0, image, v, a, n) && flags & 0x20 == 0
    requires |image0| == |image| == |v| && Arrived(image, p, image')
    ensures Durable(image', v, a, n)
  {}

  lemma TwoFlushes(image: seq<Byte>, image': seq<Byte>, p0: map<nat, Byte>, v1: seq<Byte>, v2: seq<Byte>,
                   d1: nat, n1: nat, d2: nat, n2: nat)
    requires |image| == |v1| == |v2| && d1 + n1 <= |v1| && d2 + n2 <= |v2| && (d1 + n1 <= d2 || d2 + n2 <= d1)
    requires forall x :: d1 <= x < d1 + n1 ==> v2[x] == v1[x]
    requires Arrived(image, Flushed(Flushed(p0, v1, d1, n1), v2, d2, n2), image')
    ensures Durable(image', v2, d1, n1) && Durable(image', v2, d2, n2)
  {
    hide Flushed;
  }

  lemma OtherBytes(v: seq<Byte>, a: nat, data: seq<Byte>, d: nat, n: nat)
    requires a + |data| <= |v| && d + n <= |v| && (d + n <= a || a + |data| <= d)
    ensures forall x :: d <= x < d + n ==> Written(v, a, data)[x] == v[x]
  {
    forall x | d <= x < d + n ensures Written(v, a, data)[x] == v[x] { WrittenAt(v, a, data, x); }
  }

  /** Two copies and one drain: both ranges are durable, if the second leaves the first alone. */
  method CopyTwice(m: Memory, d1: nat, s1: nat, n1: nat, d2: nat, s2: nat, n2: nat)
    requires m.Valid() && m.vol.Length <= 0x1_0000_0000_0000_0000
    requires d1 + n1 <= m.vol.Length && s1 + n1 <= m.vol.Length
    requires d2 + n2 <= m.vol.Length && s2 + n2 <= m.vol.Length
    requires d1 + n1 <= d2 || d2 + n2 <= d1
    modifies m, m.vol
    ensures m.Valid() && Durable(m.image, m.vol[..], d1, n1) && Durable(m.image, m.vol[..], d2, n2)
  {
    hide Written, Logged, Flushed, Durable;
    PmemMemmove(m, d1, s1, n1, NODRAIN);
    ghost var p1, v1 := m.pending, m.vol[..];
    PmemMemmove(m, d2, s2, n2, NODRAIN);
    OtherBytes(v1, d2, v1[s2..s2 + n2], d1, n1);
    ghost var p2, v2, before := m.pending, m.vol[..], m.image;
    m.Drain();
    TwoFlushes(before, m.image, old(m.pending), v1, v2, d1, n1, d2, n2);
  }
}
