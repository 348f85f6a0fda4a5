/** The in-place shuffle of src/Main.java and src/test/BlackjackGame1.java: for i
    from the last index down to 1, swap position i with a random j in 0..i.
    The random source becomes an oracle: js[t] is the j drawn when i is n - 1 - t. */
module FisherYates {

  /** The oracle has one draw per swap, each in the range the random call yields. */
  predicate ValidDraws(n: nat, js: seq<int>)
  {
    && |js| == (if n == 0 then 0 else n - 1)
    && forall t :: 0 <= t < |js| ==> 0 <= js[t] <= n - 1 - t
  }

  /** s with positions i and j exchanged. */
  function Swap<T>(s: seq<T>, i: nat, j: nat): (r: seq<T>)
    requires i < |s| && j < |s|
    ensures |r| == |s| && r[i] == s[j] && r[j] == s[i]
    ensures forall k :: 0 <= k < |s| && k != i && k != j ==> r[k] == s[k]
    ensures multiset(r) == multiset(s)
  {
    var r := s[i := s[j]][j := s[i]];
    assert i == j ==> r == s;
    r
  }

  /** The first k passes of the loop applied to s: pass t swaps position n - 1 - t
      with the draw js[t]. Each pass is a swap, so the result is a permutation of s. */
  function SwapsUpTo<T>(s: seq<T>, js: seq<int>, k: nat): (r: seq<T>)
    requires ValidDraws(|s|, js) && k <= |js|
    ensures |r| == |s| && multiset(r) == multiset(s)
  {
    if k == 0 then s else Swap(SwapsUpTo(s, js, k - 1), |s| - k, js[k - 1])
  }

  /** One more pass: exchanging position n - 1 - k with the draw js[k] in the result
      of the first k passes gives the result of the first k + 1. */
  lemma NextPass<T>(s: seq<T>, js: seq<int>, k: nat, pre: seq<T>, cur: seq<T>)
    requires ValidDraws(|s|, js) && k < |js|
    requires pre == SwapsUpTo(s, js, k)
    requires |s| - 1 - k < |pre| && js[k] < |pre|
    requires cur == pre[|s| - 1 - k := pre[js[k]]][js[k] := pre[|s| - 1 - k]]
    ensures cur == SwapsUpTo(s, js, k + 1)
  {
  }

  /** The whole shuffle of s under the oracle js: whatever the oracle draws, a
      permutation of s. */
  function Shuffled<T>(s: seq<T>, js: seq<int>): (r: seq<T>)
    requires ValidDraws(|s|, js)
    ensures |r| == |s| && multiset(r) == multiset(s)
  {
    SwapsUpTo(s, js, |js|)
  }
}
