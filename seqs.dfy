/** Sequence operations that the store's code takes from the JavaScript
    library: in-place `reverse`, and de-duplication through a `Set`. */
module Seqs {

  /** The elements of `s` in the opposite order (`Array.prototype.reverse`). */
  function Reverse<T>(s: seq<T>): (r: seq<T>)
    ensures |r| == |s|
    ensures forall i :: 0 <= i < |s| ==> r[i] == s[|s| - 1 - i]
  {
    seq(|s|, i requires 0 <= i < |s| => s[|s| - 1 - i])
  }

  lemma ReverseMultiset<T>(s: seq<T>)
    ensures multiset(Reverse(s)) == multiset(s)
  {
    if s != [] {
      var p := s[..|s| - 1];
      ReverseMultiset(p);
      assert Reverse(s) == [s[|s| - 1]] + Reverse(p);
      assert s == p + [s[|s| - 1]];
    }
  }

  /** Reversing twice gives back the original order. */
  lemma ReverseInvolution<T>(s: seq<T>)
    ensures Reverse(Reverse(s)) == s
  {
  }

  lemma ReverseAppend<T>(s: seq<T>, x: T)
    ensures Reverse(s + [x]) == [x] + Reverse(s)
  {
  }

  predicate Distinct<T(==)>(s: seq<T>) {
    forall i, j :: 0 <= i < j < |s| ==> s[i] != s[j]
  }

  /** `[...new Set(s)]`: each element once, kept where it first occurs. The
      contract states what is kept, not the order; the sort that follows
      the de-duplication in the store discards it. */
  function Dedup<T(==)>(s: seq<T>): (r: seq<T>)
    ensures Distinct(r)
    ensures forall i :: 0 <= i < |r| ==> r[i] in s
    ensures forall i :: 0 <= i < |s| ==> s[i] in r
    ensures |r| <= |s|
  {
    if s == [] then []
    else
      var d := Dedup(s[..|s| - 1]);
      var x := s[|s| - 1];
      assert forall i :: 0 <= i < |s| - 1 ==> s[i] == s[..|s| - 1][i];
      if x in d then d else d + [x]
  }

  /** No duplicates exactly when every element occurs at most once. */
  lemma {:induction false} DistinctMultiset<T>(s: seq<T>)
    ensures Distinct(s) <==> forall x :: multiset(s)[x] <= 1
  {
    if s != [] {
      var p, y := s[..|s| - 1], s[|s| - 1];
      assert s == p + [y];
      DistinctMultiset(p);
      if Distinct(s) {
        assert Distinct(p);
        assert y !in p;
      }
      if forall x :: multiset(s)[x] <= 1 {
        assert forall x :: multiset(p)[x] <= 1 by {
          forall x
            ensures multiset(p)[x] <= 1
          {
            assert multiset(s)[x] == multiset(p)[x] + (if x == y then 1 else 0);
          }
        }
        assert multiset(s)[y] == multiset(p)[y] + 1;
        assert y !in p;
      }
    }
  }
}
