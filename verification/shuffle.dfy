/**
 The display-order shuffle: a Fisher-Yates pass over a copy of the catalog. The
 random index of each step is a nondeterministic choice in `[0, i]`, so what is
 proved holds for every sequence of random draws.
 */
module Shuffle {

  /** `s` with the elements at `i` and `j` exchanged. */
  function Swap<T>(s: seq<T>, i: nat, j: nat): (r: seq<T>)
    requires i < |s| && j < |s|
    ensures |r| == |s|
    ensures r[i] == s[j] && r[j] == s[i]
    ensures forall k :: 0 <= k < |s| && k != i && k != j ==> r[k] == s[k]
    ensures multiset(r) == multiset(s)
  {
    s[i := s[j]][j := s[i]]
  }

  /** Returns a permutation of `questions`; the input itself is a value and stays as it is. */
  method GetRandomizedQuestions<T>(questions: seq<T>) returns (shuffled: seq<T>)
    ensures |shuffled| == |questions|
    ensures multiset(shuffled) == multiset(questions)
  {
    shuffled := questions;
    var i := |shuffled| - 1;
    while i > 0
      invariant i < |shuffled|
      invariant |shuffled| == |questions|
      invariant multiset(shuffled) == multiset(questions)
    {
      var j :| 0 <= j <= i;
      shuffled := Swap(shuffled, i, j);
      i := i - 1;
    }
  }
}
