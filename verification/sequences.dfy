/** Sequence helpers shared by the chip models: JavaScript-style indexing and
    the reference definition of an adjacent swap. */
module Sequences {
  import opened Wrappers

  /** `arr[j]` in JavaScript: the element when `j` is an index of `s`,
      `undefined` (here `None`) for every other integer. */
  function At<T>(s: seq<T>, j: int): (r: Option<T>)
  {
    if 0 <= j < |s| then Some(s[j]) else None
  }

  /** Every element of `s`, each one present. */
  function Lift<T>(s: seq<T>): (r: seq<Option<T>>)
    ensures |r| == |s|
    ensures forall i :: 0 <= i < |s| ==> r[i] == Some(s[i])
  {
    seq(|s|, i requires 0 <= i < |s| => Some(s[i]))
  }

  /** `s` with the elements at `i` and `j` exchanged. */
  function Swap<T>(s: seq<T>, i: int, j: int): (r: seq<T>)
    requires 0 <= i < |s| && 0 <= j < |s|
    ensures |r| == |s|
  {
    s[i := s[j]][j := s[i]]
  }

  /** No element of a sequence is repeated. */
  predicate Distinct<T(==)>(s: seq<T>)
  {
    forall i, j :: 0 <= i < j < |s| ==> s[i] != s[j]
  }

  /** A swap rearranges the elements and loses none of them. */
  lemma SwapPermutes<T>(s: seq<T>, i: int, j: int)
    requires 0 <= i < |s| && 0 <= j < |s|
    ensures multiset(Swap(s, i, j)) == multiset(s)
  {
    var t := s[i := s[j]];
    assert multiset(t) == multiset(s) - multiset{s[i]} + multiset{s[j]};
    assert multiset(t[j := s[i]]) == multiset(t) - multiset{t[j]} + multiset{s[i]};
  }

  /** Lifting commutes with swapping. */
  lemma LiftSwap<T>(s: seq<T>, i: int, j: int)
    requires 0 <= i < |s| && 0 <= j < |s|
    ensures Lift(Swap(s, i, j)) == Swap(Lift(s), i, j)
  {
  }
}
