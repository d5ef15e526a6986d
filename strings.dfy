/** The string operations the store's getters use: `startsWith`, the date
    part of `split('T')`, and the default ordering of `Array.prototype.sort`. */
module Strings {
  import opened Seqs

  /** `t.startsWith(p)`: p is a prefix of t. */
  predicate StartsWith(t: string, p: string) {
    |p| <= |t| && t[..|p|] == p
  }

  /** `t.split('T')[0]`: the part of t before its first 'T', or all of t when
      it has none. The three ensures determine the result uniquely. */
  function DateKey(t: string): (k: string)
    ensures StartsWith(t, k)
    ensures 'T' !in k
    ensures |k| < |t| ==> t[|k|] == 'T'
  {
    if t == [] || t[0] == 'T' then [] else [t[0]] + DateKey(t[1..])
  }

  /** Lexicographic order, character by character; a proper prefix comes first. */
  predicate Less(a: string, b: string) {
    if a == [] then b != []
    else if b == [] then false
    else if a[0] != b[0] then a[0] < b[0]
    else Less(a[1..], b[1..])
  }

  predicate LessEq(a: string, b: string) {
    a == b || Less(a, b)
  }

  lemma {:induction false} LessIrreflexive(a: string)
    ensures !Less(a, a)
  {
    if a != [] {
      LessIrreflexive(a[1..]);
    }
  }

  lemma {:induction false} LessTransitive(a: string, b: string, c: string)
    requires Less(a, b) && Less(b, c)
    ensures Less(a, c)
  {
    if a != [] && a[0] == b[0] && b[0] == c[0] {
      LessTransitive(a[1..], b[1..], c[1..]);
    }
  }

  lemma {:induction false} LessTotal(a: string, b: string)
    ensures a == b || Less(a, b) || Less(b, a)
  {
    if a != [] && b != [] && a[0] == b[0] {
      LessTotal(a[1..], b[1..]);
      if a[1..] == b[1..] {
        assert a == [a[0]] + a[1..] && b == [b[0]] + b[1..];
      }
    }
  }

  lemma LessAsymmetric(a: string, b: string)
    ensures !(Less(a, b) && Less(b, a))
  {
    if Less(a, b) && Less(b, a) {
      LessTransitive(a, b, a);
      LessIrreflexive(a);
    }
  }

  predicate Sorted(s: seq<string>) {
    forall i, j :: 0 <= i < j < |s| ==> LessEq(s[i], s[j])
  }

  /** Sorted with no duplicates. */
  predicate StrictlyAscending(s: seq<string>) {
    forall i, j :: 0 <= i < j < |s| ==> Less(s[i], s[j])
  }

  /** Puts x in front of the first element it does not exceed. */
  function Insert(x: string, s: seq<string>): (r: seq<string>)
    ensures multiset(r) == multiset(s) + multiset{x}
  {
    if s == [] then [x]
    else if LessEq(x, s[0]) then [x] + s
    else
      assert s == [s[0]] + s[1..];
      [s[0]] + Insert(x, s[1..])
  }

  lemma {:induction false} InsertSorted(x: string, s: seq<string>)
    requires Sorted(s)
    ensures Sorted(Insert(x, s))
  {
    if s == [] {
    } else if LessEq(x, s[0]) {
      forall j | 0 < j < |s| + 1
        ensures LessEq(x, ([x] + s)[j])
      {
        if x != s[0] && s[0] != s[j - 1] {
          LessTransitive(x, s[0], s[j - 1]);
        }
      }
    } else {
      LessTotal(x, s[0]);
      var tail := Insert(x, s[1..]);
      InsertSorted(x, s[1..]);
      forall y | y in tail
        ensures LessEq(s[0], y)
      {
        assert y in multiset(tail);
        if y != x {
          var j :| 0 <= j < |s[1..]| && s[1..][j] == y;
          assert s[j + 1] == y;
        }
      }
      var r := [s[0]] + tail;
      forall i, j | 0 <= i < j < |r|
        ensures LessEq(r[i], r[j])
      {
        if i == 0 {
          assert r[j] == tail[j - 1];
          assert tail[j - 1] in tail;
        } else {
          assert r[i] == tail[i - 1] && r[j] == tail[j - 1];
        }
      }
    }
  }

  /** Insertion sort: a sorted permutation of the input. For an input without
      duplicates no other sorted permutation exists, so every correct sort
      (the JavaScript one included) returns the same sequence. */
  function Sort(s: seq<string>): (r: seq<string>)
    ensures multiset(r) == multiset(s)
    ensures Sorted(r)
  {
    if s == [] then []
    else
      var rest := Sort(s[1..]);
      InsertSorted(s[0], rest);
      assert s == [s[0]] + s[1..];
      Insert(s[0], rest)
  }

  lemma SortedDistinctIsStrict(s: seq<string>)
    requires Sorted(s) && Distinct(s)
    ensures StrictlyAscending(s)
  {
  }

  /** The first element of a strictly ascending sequence is below the rest. */
  lemma FirstIsLeast(s: seq<string>, x: string)
    requires StrictlyAscending(s) && x in s
    ensures LessEq(s[0], x)
  {
  }

  /** Two strictly ascending sequences with the same elements are equal. */
  lemma {:induction false} StrictlyAscendingUnique(s: seq<string>, t: seq<string>)
    requires StrictlyAscending(s) && StrictlyAscending(t)
    requires forall x :: x in s <==> x in t
    ensures s == t
  {
    SameElementsBothEmpty(s, t);
    if s != [] {
      assert s[0] in s && t[0] in t;
      FirstIsLeast(s, t[0]);
      FirstIsLeast(t, s[0]);
      LessAsymmetric(s[0], t[0]);
      assert s[0] == t[0];
      assert s == [s[0]] + s[1..] && t == [t[0]] + t[1..];
      forall x
        ensures x in s[1..] <==> x in t[1..]
      {
        LessIrreflexive(x);
        if x in s[1..] {
          var j :| 0 < j < |s| && s[j] == x;
          assert Less(s[0], s[j]);
          assert x in t && x != t[0];
        }
        if x in t[1..] {
          var j :| 0 < j < |t| && t[j] == x;
          assert Less(t[0], t[j]);
          assert x in s && x != s[0];
        }
      }
      StrictlyAscendingUnique(s[1..], t[1..]);
    }
  }

  lemma SameElementsBothEmpty(s: seq<string>, t: seq<string>)
    requires forall x :: x in s <==> x in t
    ensures s == [] <==> t == []
  {
    if s != [] {
      assert s[0] in s;
    }
    if t != [] {
      assert t[0] in t;
    }
  }

  /** For an ISO timestamp: the date key is everything before the 'T'. */
  lemma {:induction false} DateKeyBeforeT(p: string, rest: string)
    requires 'T' !in p
    ensures DateKey(p + ['T'] + rest) == p
  {
    if p != [] {
      assert (p + ['T'] + rest)[1..] == p[1..] + ['T'] + rest;
      DateKeyBeforeT(p[1..], rest);
      assert p == [p[0]] + p[1..];
    }
  }

  /** Strings that agree up to a position compare by the characters there. */
  lemma {:induction false} LessAtFirstDifference(p: string, c: char, d: char, a: string, b: string)
    requires c < d
    ensures Less(p + [c] + a, p + [d] + b)
  {
    if p != [] {
      assert (p + [c] + a)[1..] == p[1..] + [c] + a;
      assert (p + [d] + b)[1..] == p[1..] + [d] + b;
      LessAtFirstDifference(p[1..], c, d, a, b);
    }
  }
}
