/** `Array.prototype.filter` and the duplicate-free lists the pages keep. */
module Seqs {
  predicate NoDuplicates<T(==,!new)>(s: seq<T>) {
    forall i, j :: 0 <= i < j < |s| ==> s[i] != s[j]
  }

  /** `s.filter(keep)`: the elements `keep` accepts, in their order. */
  function Filter<T(==,!new)>(s: seq<T>, keep: T -> bool): (r: seq<T>)
    ensures |r| <= |s|
    ensures forall x :: x in r <==> x in s && keep(x)
  {
    if s == [] then []
    else (if keep(s[0]) then [s[0]] else []) + Filter(s[1..], keep)
  }

  lemma AppendAssoc<T>(a: seq<T>, b: seq<T>, c: seq<T>)
    ensures a + (b + c) == (a + b) + c
  {
  }

  /** Filtering works piecewise, so it keeps the order of what it keeps. */
  lemma {:induction false} FilterAppend<T(!new)>(a: seq<T>, b: seq<T>, keep: T -> bool)
    ensures Filter(a + b, keep) == Filter(a, keep) + Filter(b, keep)
  {
    if a != [] {
      FilterAppend(a[1..], b, keep);
      assert (a + b)[0] == a[0];
      assert (a + b)[1..] == a[1..] + b;
      var head := if keep(a[0]) then [a[0]] else [];
      assert Filter(a + b, keep) == head + Filter(a[1..] + b, keep);
      AppendAssoc(head, Filter(a[1..], keep), Filter(b, keep));
    } else {
      assert a + b == b;
    }
  }

  /** Nothing is lost when every element passes. */
  lemma {:induction false} FilterKeepsAll<T(!new)>(s: seq<T>, keep: T -> bool)
    requires forall i :: 0 <= i < |s| ==> keep(s[i])
    ensures Filter(s, keep) == s
  {
    if s != [] {
      FilterKeepsAll(s[1..], keep);
    }
  }

  lemma NoDuplicatesCons<T(!new)>(s: seq<T>)
    requires s != []
    ensures NoDuplicates(s) <==> s[0] !in s[1..] && NoDuplicates(s[1..])
  {
    if s[0] !in s[1..] && NoDuplicates(s[1..]) {
      forall i, j | 0 <= i < j < |s|
        ensures s[i] != s[j]
      {
        if i > 0 {
          assert s[i] == s[1..][i - 1] && s[j] == s[1..][j - 1];
        } else {
          assert s[j] == s[1..][j - 1];
        }
      }
    }
    if NoDuplicates(s) {
      forall k | 0 <= k < |s[1..]|
        ensures s[1..][k] != s[0]
      {
        assert s[1..][k] == s[k + 1];
      }
    }
  }

  /** A filtered duplicate-free list is still duplicate-free. */
  lemma {:induction false} FilterNoDuplicates<T(!new)>(s: seq<T>, keep: T -> bool)
    requires NoDuplicates(s)
    ensures NoDuplicates(Filter(s, keep))
  {
    if s != [] {
      NoDuplicatesCons(s);
      FilterNoDuplicates(s[1..], keep);
      var rest := Filter(s[1..], keep);
      if keep(s[0]) {
        var r := [s[0]] + rest;
        assert Filter(s, keep) == r;
        assert r[1..] == rest;
        NoDuplicatesCons(r);
      } else {
        assert Filter(s, keep) == rest;
      }
    }
  }

  /** Appending an absent element keeps a list duplicate-free. */
  lemma AppendNoDuplicates<T(!new)>(s: seq<T>, x: T)
    requires NoDuplicates(s) && x !in s
    ensures NoDuplicates(s + [x])
  {
    var r := s + [x];
    forall i, j | 0 <= i < j < |r|
      ensures r[i] != r[j]
    {
      if j == |s| {
        assert r[i] == s[i];
      }
    }
  }
}
