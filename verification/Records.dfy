/** Log records of the sorting plugin, their 10-byte keys, and the order on them. */
module Records {

  type Byte = b: int | 0 <= b < 256

  const RECORD_SIZE := 100
  const KEY_SIZE := 10

  /** A record is 100 bytes; the first 10 (timestamp, datacenter, operation) are its sort key. */
  datatype RawRecord = RawRecord(bytes: seq<Byte>)
  type Record = r: RawRecord | |r.bytes| == RECORD_SIZE witness RawRecord(seq(RECORD_SIZE, _ => 0))

  /** The number a byte string denotes, most significant byte first. */
  function BigEndian(s: seq<Byte>): (v: nat) {
    if s == [] then 0 else 256 * BigEndian(s[..|s| - 1]) + s[|s| - 1]
  }

  function SortKey(r: Record): (k: nat) {
    BigEndian(r.bytes[..KEY_SIZE])
  }

  /** Strict lexicographic order on the first `n` bytes. */
  ghost predicate LexLess(a: seq<Byte>, b: seq<Byte>, n: nat)
    requires n <= |a| && n <= |b|
  {
    exists i :: 0 <= i < n && a[..i] == b[..i] && a[i] < b[i]
  }

  lemma BigEndianLast(s: seq<Byte>, n: nat)
    requires 0 < n <= |s|
    ensures BigEndian(s[..n]) == 256 * BigEndian(s[..n - 1]) + s[n - 1]
  {
    assert s[..n][..n - 1] == s[..n - 1];
  }

  /** One more byte decides only when all bytes before it agree. */
  lemma LexLessLast(a: seq<Byte>, b: seq<Byte>, n: nat)
    requires 0 < n <= |a| && n <= |b|
    ensures LexLess(a, b, n) <==> LexLess(a, b, n - 1) || (a[..n - 1] == b[..n - 1] && a[n - 1] < b[n - 1])
    ensures a[..n] == b[..n] <==> a[..n - 1] == b[..n - 1] && a[n - 1] == b[n - 1]
  {
    assert a[..n] == a[..n - 1] + [a[n - 1]] && b[..n] == b[..n - 1] + [b[n - 1]];
    if i :| 0 <= i < n - 1 && a[..i] == b[..i] && a[i] < b[i] {
      assert 0 <= i < n && a[..i] == b[..i] && a[i] < b[i];
    }
  }

  /** Comparing the numbers is comparing the strings byte by byte. */
  lemma {:induction false} BigEndianIsLexicographic(a: seq<Byte>, b: seq<Byte>, n: nat)
    requires n <= |a| && n <= |b|
    ensures BigEndian(a[..n]) < BigEndian(b[..n]) <==> LexLess(a, b, n)
    ensures BigEndian(a[..n]) == BigEndian(b[..n]) <==> a[..n] == b[..n]
  {
    if n > 0 {
      hide BigEndian, LexLess;
      BigEndianIsLexicographic(a, b, n - 1);
      BigEndianLast(a, n);
      BigEndianLast(b, n);
      LexLessLast(a, b, n);
    }
  }

  /** Somewhere in the first ten bytes, all before them being equal, `a` has the smaller one. */
  ghost predicate KeyBefore(a: Record, b: Record) {
    exists i :: 0 <= i < 10 && a.bytes[..i] == b.bytes[..i] && a.bytes[i] < b.bytes[i]
  }

  /** The order of the sort keys is that of the first ten bytes. */
  lemma KeyBeforeIs(a: Record, b: Record)
    ensures KeyBefore(a, b) <==> SortKey(a) < SortKey(b)
  {
    BigEndianIsLexicographic(a.bytes, b.bytes, KEY_SIZE);
  }

  /** The loop advances past equal bytes and stops moving at the first difference. */
  method IsSmaller(r1: Record, r2: Record) returns (less: bool)
    ensures less <==> KeyBefore(r1, r2)
    ensures less <==> SortKey(r1) < SortKey(r2)
  {
    var p1, p2 := 0, 0;
    for i := 0 to KEY_SIZE - 1
      invariant 0 <= p1 == p2 <= i
      invariant r1.bytes[..p1] == r2.bytes[..p2]
      invariant p1 < i ==> r1.bytes[p1] != r2.bytes[p2]
    {
      if r1.bytes[p1] == r2.bytes[p2] {
        assert r1.bytes[..p1 + 1] == r1.bytes[..p1] + [r1.bytes[p1]];
        assert r2.bytes[..p1 + 1] == r2.bytes[..p1] + [r2.bytes[p1]];
        p1, p2 := p1 + 1, p2 + 1;
      }
    }
    less := r1.bytes[p1] < r2.bytes[p2];
    FirstDifferenceDecides(r1.bytes, r2.bytes, p1);
    KeyBeforeIs(r1, r2);
    BigEndianIsLexicographic(r1.bytes, r2.bytes, KEY_SIZE);
  }

  /** When two strings agree before `p`, and `p` is the last byte or a difference, byte `p` decides. */
  lemma FirstDifferenceDecides(a: seq<Byte>, b: seq<Byte>, p: nat)
    requires p < KEY_SIZE <= |a| && KEY_SIZE <= |b|
    requires a[..p] == b[..p]
    requires p < KEY_SIZE - 1 ==> a[p] != b[p]
    ensures LexLess(a, b, KEY_SIZE) <==> a[p] < b[p]
  {}

  ghost predicate Sorted(s: seq<Record>) {
    forall i, j :: 0 <= i < j < |s| ==> SortKey(s[i]) <= SortKey(s[j])
  }

  ghost predicate AdjacentSorted(s: seq<Record>) {
    forall i :: 0 <= i < |s| - 1 ==> SortKey(s[i]) <= SortKey(s[i + 1])
  }

  /** Checking neighbours is enough. */
  lemma {:induction false} AdjacentIsSorted(s: seq<Record>)
    ensures AdjacentSorted(s) <==> Sorted(s)
  {
    if AdjacentSorted(s) {
      forall i, j | 0 <= i < j < |s| ensures SortKey(s[i]) <= SortKey(s[j]) { AdjacentChain(s, i, j); }
    }
    if Sorted(s) {
      forall i | 0 <= i < |s| - 1 ensures SortKey(s[i]) <= SortKey(s[i + 1]) {}
    }
  }

  lemma {:induction false} AdjacentChain(s: seq<Record>, i: nat, j: nat)
    requires AdjacentSorted(s) && i <= j < |s|
    ensures SortKey(s[i]) <= SortKey(s[j])
    decreases j - i
  {
    if i < j {
      AdjacentChain(s, i, j - 1);
      assert SortKey(s[j - 1]) <= SortKey(s[j - 1 + 1]);
    }
  }

  /** Sorted: no record has smaller first ten bytes than one before it. */
  lemma SortedMeans(s: seq<Record>)
    ensures Sorted(s) <==> forall i, j :: 0 <= i < j < |s| ==> !KeyBefore(s[j], s[i])
  {
    hide SortKey, KeyBefore;
    forall i, j | 0 <= i < j < |s| ensures KeyBefore(s[j], s[i]) <==> SortKey(s[j]) < SortKey(s[i]) {
      KeyBeforeIs(s[j], s[i]);
    }
  }

  ghost function Flatten(chunks: seq<seq<Record>>): (all: seq<Record>) {
    if chunks == [] then [] else Flatten(chunks[..|chunks| - 1]) + chunks[|chunks| - 1]
  }

  lemma {:induction false} FlattenConcat(a: seq<seq<Record>>, b: seq<seq<Record>>)
    ensures Flatten(a + b) == Flatten(a) + Flatten(b)
  {
    if b == [] {
      assert a + b == a;
    } else {
      var n := |b| - 1;
      FlattenConcat(a, b[..n]);
      assert (a + b)[..|a + b| - 1] == a + b[..n];
    }
  }

  /** Where record `k` of chunk `j` ends up. */
  lemma FlattenPlace(cs: seq<seq<Record>>, j: nat, k: nat)
    requires j < |cs| && k < |cs[j]|
    ensures var p := |Flatten(cs[..j])|;
      && |Flatten(cs[..j + 1])| == p + |cs[j]| <= |Flatten(cs)|
      && Flatten(cs)[p + k] == cs[j][k]
  {
    var a, b := cs[..j + 1], cs[j + 1..];
    assert cs == a + b;
    FlattenConcat(a, b);
    assert a[..|a| - 1] == cs[..j];
    assert Flatten(a) == Flatten(cs[..j]) + cs[j];
  }

  lemma FlattenGrows(cs: seq<seq<Record>>, i: nat, j: nat)
    requires i <= j <= |cs|
    ensures |Flatten(cs[..i])| <= |Flatten(cs[..j])|
  {
    FlattenConcat(cs[..i], cs[i..j]);
    assert cs[..j] == cs[..i] + cs[i..j];
  }
}
