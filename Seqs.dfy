/** Facts about sequences of names shared by the partition arithmetic and the folder model. */
module Seqs {

  /** No element occurs twice, as in a directory listing and every list derived from one. */
  ghost predicate Distinct<T>(s: seq<T>)
  {
    forall i, j :: 0 <= i < j < |s| ==> s[i] != s[j]
  }

  /** The two sequences have no element in common. */
  ghost predicate Disjoint<T>(a: seq<T>, b: seq<T>)
  {
    forall x :: x in a ==> x !in b
  }

  /** Two non-overlapping index ranges of a duplicate-free sequence share no element. */
  lemma DisjointRanges<T>(s: seq<T>, i: nat, j: nat, k: nat, l: nat)
    requires Distinct(s)
    requires i <= j <= k <= l <= |s|
    ensures Disjoint(s[i..j], s[k..l])
  {
    forall x | x in s[i..j]
      ensures x !in s[k..l]
    {
      var p :| 0 <= p < j - i && s[i..j][p] == x;
      assert s[i + p] == x;
      forall q | 0 <= q < l - k
        ensures s[k..l][q] != x
      {
        assert s[k..l][q] == s[k + q] && i + p < k + q;
      }
    }
  }
}
