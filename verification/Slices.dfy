/** A fact about sequences that both byte models use. */
module Slices {

  lemma SubSlice<T>(v: seq<T>, a: nat, n: nat, lo: nat, m: nat)
    requires a + n <= |v| && lo + m <= n
    ensures v[a..a + n][lo..lo + m] == v[a + lo..a + lo + m]
  {
    var s, t := v[a..a + n][lo..lo + m], v[a + lo..a + lo + m];
    forall k | 0 <= k < m ensures s[k] == t[k] {
      assert s[k] == v[a..a + n][lo + k] == v[a + (lo + k)];
    }
  }
}
