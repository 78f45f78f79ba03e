/** Pool keys, the strings they are stored under, and the substring tests of `stabilize_PM`. */
module KeyNames {

  /** std::to_string of an unsigned number. */
  function Dec(n: nat): (s: string)
    ensures |s| >= 1 && Digits(s)
  {
    if n < 10 then [Digit(n)] else Dec(n / 10) + [Digit(n % 10)]
  }

  function Digit(d: nat): (c: char)
    requires d < 10
    ensures IsDigit(c)
  {
    "0123456789"[d]
  }

  predicate IsDigit(c: char) { '0' <= c <= '9' }

  predicate Digits(s: string) { forall i :: 0 <= i < |s| ==> IsDigit(s[i]) }

  function DigitValue(c: char): (d: nat)
    requires IsDigit(c)
    ensures d < 10
  {
    c as int - '0' as int
  }

  /** The number a digit string denotes. */
  function Value(s: string): (v: nat)
    requires Digits(s)
  {
    if s == [] then 0 else 10 * Value(s[..|s| - 1]) + DigitValue(s[|s| - 1])
  }

  lemma {:induction false} ValueOfDec(n: nat)
    ensures Value(Dec(n)) == n
  {
    if n >= 10 {
      ValueOfDec(n / 10);
      assert Dec(n)[..|Dec(n)| - 1] == Dec(n / 10);
    }
  }

  /** Printing then reading back makes printing injective. */
  lemma DecInjective(m: nat, n: nat)
    requires Dec(m) == Dec(n)
    ensures m == n
  {
    ValueOfDec(m);
    ValueOfDec(n);
  }

  /** Appending digits multiplies by ten at least once. */
  lemma {:induction false} ValueOfExtension(s: string, t: string)
    requires Digits(s) && Digits(t) && s <= t
    ensures Value(t) >= Value(s)
    ensures s != t ==> Value(t) >= 10 * Value(s)
  {
    if s != t {
      ValueOfExtension(s, t[..|t| - 1]);
    }
  }

  lemma {:induction false} LeadingZero(n: nat)
    requires Dec(n)[0] == '0'
    ensures n == 0
  {
    if n >= 10 { LeadingZero(n / 10); }
  }

  /** A chunk key: level, index within the level, and whether it is the quicksorted copy of an L0 chunk. */
  datatype Key = Chunk(level: nat, index: nat, sorted: bool)

  function Name(k: Key): (s: string) {
    "L" + Dec(k.level) + "chunk" + Dec(k.index) + if k.sorted then "Sorted" else ""
  }

  predicate OccursAt(hay: string, needle: string, i: int) {
    0 <= i <= |hay| - |needle| && hay[i..i + |needle|] == needle
  }

  /** `hay.find(needle) != npos` */
  ghost predicate Contains(hay: string, needle: string) {
    exists i :: OccursAt(hay, needle, i)
  }

  /** 'L' stands only at the front of a name, 'S' only where "Sorted" begins, 's' nowhere. */
  lemma NameChars(k: Key, i: nat)
    requires i < |Name(k)|
    ensures Name(k)[i] == 'L' ==> i == 0
    ensures Name(k)[i] == 'S' ==> k.sorted && i == |Name(k)| - 6
    ensures Name(k)[i] != 's'
  {
    var a, b := Dec(k.level), Dec(k.index);
    assert 1 <= i <= |a| ==> Name(k)[i] == a[i - 1];
    assert |a| + 6 <= i < |a| + 6 + |b| ==> Name(k)[i] == b[i - |a| - 6];
  }

  lemma NotSuperblock(k: Key)
    ensures !Contains(Name(k), "superblock")
  {
    forall i | 0 <= i <= |Name(k)| - 10 ensures !OccursAt(Name(k), "superblock", i) {
      assert Name(k)[i..i + 10][0] == Name(k)[i];
      NameChars(k, i);
    }
  }

  lemma ContainsSorted(k: Key)
    ensures Contains(Name(k), "Sorted") <==> k.sorted
  {
    forall i | 0 <= i <= |Name(k)| - 6 && !k.sorted ensures !OccursAt(Name(k), "Sorted", i) {
      assert Name(k)[i..i + 6][0] == Name(k)[i];
      NameChars(k, i);
    }
    assert k.sorted ==> OccursAt(Name(k), "Sorted", |Name(k)| - 6);
  }

  /** Searching for a level's identifier finds exactly the levels whose decimal form starts with it. */
  lemma ContainsLevel(k: Key, level: nat)
    ensures Contains(Name(k), "L" + Dec(level)) <==> Dec(level) <= Dec(k.level)
  {
    var id := "L" + Dec(level);
    forall i | OccursAt(Name(k), id, i) ensures Dec(level) <= Dec(k.level) {
      assert Name(k)[i] == Name(k)[i..i + |id|][0];
      NameChars(k, i);
      LevelPrefix(k, Dec(level));
    }
    if Dec(level) <= Dec(k.level) {
      assert OccursAt(Name(k), id, 0);
    }
  }

  lemma LevelPrefix(k: Key, d: string)
    requires Digits(d) && |d| < |Name(k)| && Name(k)[..1 + |d|] == "L" + d
    ensures d <= Dec(k.level)
  {
    hide Dec;
    var a, name := Dec(k.level), Name(k);
    assert name[1 + |a|] == 'c' && name[1..1 + |a|] == a;
    assert name[1..1 + |d|] == d by { assert name[1..1 + |d|] == name[..1 + |d|][1..]; }
    assert forall j :: 0 <= j < |d| ==> d[j] == name[1 + j];
    if |d| <= |a| { assert a[..|d|] == name[1..1 + |a|][..|d|] == name[1..1 + |d|]; }
  }

  /** No two levels closer than nine apart are confused, although "L1" is found in "L10". */
  lemma NearLevelsDistinct(k: Key, level: nat)
    requires k.level < level + 9
    ensures Contains(Name(k), "L" + Dec(level)) <==> k.level == level
  {
    ContainsLevel(k, level);
    if Dec(level) <= Dec(k.level) && k.level != level {
      if level == 0 {
        assert Dec(0) == "0";
        LeadingZero(k.level);
      } else {
        ValueOfDec(level);
        ValueOfDec(k.level);
        ValueOfExtension(Dec(level), Dec(k.level));
      }
    }
  }

  lemma LevelsTenAndOneConfused(i: nat)
    ensures Contains(Name(Chunk(10, i, false)), "L" + Dec(1))
  {
    ContainsLevel(Chunk(10, i, false), 1);
    assert Dec(10) == Dec(1) + "0";
  }

  /** The erase test of `stabilize_PM`; level -1 asks for the quicksorted L0 chunks. */
  ghost predicate EraseTest(name: string, level: int)
    requires level >= -1
  {
    var sortedRequired := level == -1;
    var identifier := if sortedRequired then "L0" else "L" + Dec(level);
    var differentLevel := !Contains(name, identifier);
    var isSortedChunkKey := Contains(name, "Sorted");
    var isSuperblock := Contains(name, "superblock");
    !isSuperblock && (differentLevel || isSortedChunkKey != sortedRequired)
  }

  ghost predicate ShouldErase(k: Key, level: int)
    requires level >= -1
  {
    EraseTest(Name(k), level)
  }

  /** The superblock's own key survives, and no chunk is stored under it. */
  lemma SuperblockStays(k: Key, level: int)
    requires level >= -1
    ensures !EraseTest("superblock", level) && Name(k) != "superblock"
  {
    assert OccursAt("superblock", "superblock", 0);
    NotSuperblock(k);
  }

  lemma NameExamples()
    ensures Name(Chunk(0, 7, true)) == "L0chunk7Sorted" && Name(Chunk(9, 10, false)) == "L9chunk10"
  {
    assert Dec(0) == "0" && Dec(7) == "7" && Dec(9) == "9" && Dec(10) == Dec(1) + "0" == "10";
    hide Dec;
  }

  lemma ShouldEraseExactly(k: Key, level: int)
    requires level >= -1
    requires k.level < (if level == -1 then 0 else level) + 9
    ensures ShouldErase(k, level) <==>
            k.level != (if level == -1 then 0 else level) || k.sorted != (level == -1)
  {
    NotSuperblock(k);
    ContainsSorted(k);
    assert "L" + Dec(0) == "L0";
    NearLevelsDistinct(k, if level == -1 then 0 else level);
  }

  /** Different keys have different names, so the pool may be indexed by keys. */
  lemma NameInjective(k: Key, l: Key)
    requires Name(k) == Name(l)
    ensures k == l
  {
    ContainsSorted(k);
    ContainsSorted(l);
    assert Name(k)[..1 + |Dec(k.level)|] == "L" + Dec(k.level);
    assert Name(l)[..1 + |Dec(l.level)|] == "L" + Dec(l.level);
    LevelPrefix(l, Dec(k.level));
    LevelPrefix(k, Dec(l.level));
    DecInjective(k.level, l.level);
    IndexIsMiddle(k);
    IndexIsMiddle(l);
    DecInjective(k.index, l.index);
  }

  lemma IndexIsMiddle(k: Key)
    ensures |Name(k)| >= 6 + |Dec(k.level)| + if k.sorted then 6 else 0
    ensures Dec(k.index) == Name(k)[6 + |Dec(k.level)|..|Name(k)| - if k.sorted then 6 else 0]
  {
    var front := "L" + Dec(k.level) + "chunk";
    assert Name(k) == front + Dec(k.index) + if k.sorted then "Sorted" else "";
  }
}
