/** Small vocabulary that the models share. */
module Basics {

  datatype Option<T> = None | Some(value: T)

  predicate NoRepeats(ids: seq<nat>)
  {
    ids == [] || (ids[0] !in ids[1..] && NoRepeats(ids[1..]))
  }

  lemma {:induction false} NoRepeatsIff(ids: seq<nat>)
    ensures NoRepeats(ids) <==> forall i, k :: 0 <= i < k < |ids| ==> ids[i] != ids[k]
  {
    if ids != [] {
      NoRepeatsIff(ids[1..]);
      assert forall i :: 0 < i < |ids| ==> ids[i] == ids[1..][i - 1] && ids[i] in ids[1..];
      assert forall i :: 0 <= i < |ids[1..]| ==> ids[1..][i] == ids[i + 1];
    }
  }

  lemma NoRepeatsLast(ids: seq<nat>)
    requires ids != []
    ensures NoRepeats(ids) <==> ids[|ids| - 1] !in ids[..|ids| - 1] && NoRepeats(ids[..|ids| - 1])
  {
    var n := |ids| - 1;
    NoRepeatsIff(ids);
    NoRepeatsIff(ids[..n]);
    if NoRepeats(ids[..n]) && ids[n] !in ids[..n] {
      forall i, k | 0 <= i < k <= n ensures ids[i] != ids[k] {
        assert ids[..n][i] in ids[..n];
        if k < n { assert ids[..n][i] != ids[..n][k]; }
      }
    }
    if NoRepeats(ids) {
      forall i, k | 0 <= i < k < n ensures ids[..n][i] != ids[..n][k] {
      }
    }
  }

  /** No two records of the list have the same identifier. */
  ghost predicate UniqueBy<R>(s: seq<R>, id: R -> nat)
  {
    forall i, k :: 0 <= i < k < |s| ==> id(s[i]) != id(s[k])
  }

  function Max(a: nat, b: nat): nat { if a < b then b else a }

  lemma SubsetSize<T>(small: set<T>, big: set<T>)
    requires small <= big
    ensures |small| <= |big|
  {
    assert big == small + (big - small);
  }
}
