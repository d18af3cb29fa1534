/** Sequence helpers shared by the indexer and the retriever: distinctness and
    Python's clamping slice `s[lo:hi]`. */
module Seqs {

  function Min(a: int, b: int): int
  {
    if a <= b then a else b
  }

  /** No element occurs twice. */
  predicate Distinct<T(==)>(s: seq<T>)
  {
    forall i, j :: 0 <= i < j < |s| ==> s[i] != s[j]
  }

  /** Python's `s[lo:hi]` for non-negative bounds: both bounds are clamped to
      the length, so a slice running past the end is simply shorter. */
  function Slice<T>(s: seq<T>, lo: nat, hi: nat): (r: seq<T>)
    ensures |r| <= hi - lo || hi < lo
    ensures lo <= hi <= |s| ==> r == s[lo..hi]
    ensures lo <= |s| <= hi ==> r == s[lo..]
  {
    var a := Min(lo, |s|);
    var b := Min(hi, |s|);
    if a <= b then s[a..b] else []
  }

  lemma {:induction false} DistinctSlice<T>(s: seq<T>, lo: nat, hi: nat)
    requires Distinct(s)
    ensures Distinct(Slice(s, lo, hi))
  {
    var a := Min(lo, |s|);
    var b := Min(hi, |s|);
    if a <= b {
      var r := s[a..b];
      forall i, j | 0 <= i < j < |r| ensures r[i] != r[j] {
        assert r[i] == s[a + i] && r[j] == s[a + j];
      }
    }
  }

  /** A prefix followed by the next slice is a longer prefix. */
  lemma PrefixThenSlice<T>(s: seq<T>, lo: nat, hi: nat)
    requires lo <= hi && lo <= |s|
    ensures s[..lo] + Slice(s, lo, hi) == s[..Min(hi, |s|)]
  {
  }
}
