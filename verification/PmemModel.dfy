/** Persistent memory behind a cache: volatile bytes, flushed bytes, the persistent image, and a log of stores. */
module PmemModel {

  type Byte = bv8

  /** One store instruction. */
  datatype Store = Store(addr: nat, data: seq<Byte>) {
    function End(): (e: nat) { addr + |data| }
  }

  /** Memory `m` with `data` at address `a`. */
  function Written(m: seq<Byte>, a: nat, data: seq<Byte>): (r: seq<Byte>)
    requires a + |data| <= |m|
    ensures |r| == |m|
  {
    m[..a] + data + m[a + |data|..]
  }

  lemma WrittenAt(m: seq<Byte>, a: nat, data: seq<Byte>, i: nat)
    requires a + |data| <= |m| && i < |m|
    ensures Written(m, a, data)[i] == if a <= i < a + |data| then data[i - a] else m[i]
  {}

  ghost predicate InBounds(log: seq<Store>, n: nat) {
    forall i :: 0 <= i < |log| ==> log[i].End() <= n
  }

  /** Memory after a sequence of stores. */
  ghost function Replay(m: seq<Byte>, log: seq<Store>): (r: seq<Byte>)
    requires InBounds(log, |m|)
    ensures |r| == |m|
  {
    if log == [] then m
    else Written(Replay(m, log[..|log| - 1]), log[|log| - 1].addr, log[|log| - 1].data)
  }

  lemma ReplayOne(m: seq<Byte>, log: seq<Store>, st: Store)
    requires InBounds(log, |m|) && st.End() <= |m|
    ensures InBounds(log + [st], |m|)
    ensures Replay(m, log + [st]) == Written(Replay(m, log), st.addr, st.data)
  {
    assert (log + [st])[..|log|] == log;
  }

  class Memory {
    const vol: array<Byte>
    var pending: map<nat, Byte>
    var image: seq<Byte>
    ghost var stores: seq<Store>
    ghost var base: seq<Byte>

    /** `base` with all logged stores replayed is the volatile content. */
    ghost predicate Valid()
      reads this, vol
    {
      && |image| == vol.Length == |base|
      && (forall a :: a in pending ==> a < vol.Length)
      && InBounds(stores, |base|)
      && vol[..] == Replay(base, stores)
    }

    constructor (bytes: array<Byte>)
      ensures Valid() && vol == bytes && image == bytes[..] && pending == map[] && stores == []
    {
      vol := bytes;
      new;
      pending := map[];
      image := vol[..];
      stores := [];
      base := vol[..];
    }

    /** A one-byte store. */
    method StoreByte(a: nat, b: Byte)
      requires Valid() && a < vol.Length
      modifies this, vol
      ensures Valid() && base == old(base) && pending == old(pending) && image == old(image)
      ensures stores == old(stores) + [Store(a, [b])]
      ensures vol[..] == Written(old(vol[..]), a, [b])
    {
      ReplayOne(base, stores, Store(a, [b]));
      vol[a] := b;
      stores := stores + [Store(a, [b])];
    }

    method Load8(a: nat) returns (w: seq<Byte>)
      requires Valid() && a + 8 <= vol.Length
      ensures w == vol[..][a..a + 8] && |w| == 8
    {
      w := vol[a..a + 8];
    }

    /** An atomic eight-byte store. */
    method Store8(a: nat, w: seq<Byte>)
      requires Valid() && |w| == 8 && a + 8 <= vol.Length
      modifies this, vol
      ensures Valid() && base == old(base) && pending == old(pending) && image == old(image)
      ensures stores == old(stores) + [Store(a, w)]
      ensures vol[..] == Written(old(vol[..]), a, w)
    {
      ReplayOne(base, stores, Store(a, w));
      forall j | 0 <= j < 8 { vol[a + j] := w[j]; }
      hide Written;
      forall i | 0 <= i < vol.Length ensures vol[..][i] == Written(old(vol[..]), a, w)[i] {
        WrittenAt(old(vol[..]), a, w, i);
        if a <= i < a + 8 { assert vol[a + (i - a)] == w[i - a]; }
      }
      assert vol[..] == Written(old(vol[..]), a, w);
      stores := stores + [Store(a, w)];
    }

    /** `pmem_flush`: the current bytes of the range are on their way to the medium. */
    method Flush(a: nat, n: nat)
      requires Valid() && a + n <= vol.Length
      modifies this`pending
      ensures Valid()
      ensures pending == old(pending) + (map x | a <= x < a + n :: vol[x])
    {
      pending := pending + (map x | a <= x < a + n :: vol[x]);
    }

    /** `pmem_drain`: everything flushed so far has arrived. */
    method Drain()
      requires Valid()
      modifies this`pending, this`image
      ensures Valid() && pending == map[]
      ensures forall a :: 0 <= a < vol.Length ==>
                image[a] == if a in old(pending) then old(pending)[a] else old(image)[a]
    {
      image := seq(|image|, a requires 0 <= a < |image| reads this => if a in pending then pending[a] else image[a]);
      pending := map[];
    }
  }
}
