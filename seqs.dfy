/** Order-preserving sequence operations shared by the data layer and the screens (`Array.prototype.filter`). */
module Seqs {

  /** `s` with every element that fails `keep` dropped, in the original order. */
  function Filter<T(==)>(s: seq<T>, keep: T -> bool): (r: seq<T>)
    ensures |r| <= |s|
    ensures forall i :: 0 <= i < |r| ==> r[i] in s && keep(r[i])
    ensures forall i :: 0 <= i < |s| && keep(s[i]) ==> s[i] in r
  {
    if s == [] then []
    else if keep(s[0]) then [s[0]] + Filter(s[1..], keep)
    else Filter(s[1..], keep)
  }

  /** Every kept element occurs in the result exactly as often as in `s`; no other element occurs. */
  lemma {:induction false} FilterMultiset<T>(s: seq<T>, keep: T -> bool, x: T)
    ensures multiset(Filter(s, keep))[x] == if keep(x) then multiset(s)[x] else 0
  {
    if s != [] {
      assert s == [s[0]] + s[1..];
      FilterMultiset(s[1..], keep, x);
    }
  }

  /** `r` can be obtained from `s` by deleting elements, without reordering. */
  predicate IsSubsequence<T(==)>(r: seq<T>, s: seq<T>)
  {
    if r == [] then true
    else if s == [] then false
    else (r[0] == s[0] && IsSubsequence(r[1..], s[1..])) || IsSubsequence(r, s[1..])
  }

  lemma {:induction false} FilterIsSubsequence<T>(s: seq<T>, keep: T -> bool)
    ensures IsSubsequence(Filter(s, keep), s)
  {
    if s != [] {
      FilterIsSubsequence(s[1..], keep);
      if !keep(s[0]) {
        SubsequenceOfTail(Filter(s[1..], keep), s);
      }
    }
  }

  lemma {:induction false} SubsequenceOfTail<T>(r: seq<T>, s: seq<T>)
    requires s != [] && IsSubsequence(r, s[1..])
    ensures IsSubsequence(r, s)
  {
  }

  /** Filtering distributes over concatenation. */
  lemma {:induction false} FilterAppend<T>(s: seq<T>, t: seq<T>, keep: T -> bool)
    ensures Filter(s + t, keep) == Filter(s, keep) + Filter(t, keep)
  {
    if s == [] {
      assert s + t == t;
    } else {
      assert (s + t)[0] == s[0];
      assert (s + t)[1..] == s[1..] + t;
      FilterAppend(s[1..], t, keep);
    }
  }

  /** Filtering keeps everything exactly when every element passes. */
  lemma {:induction false} FilterAllKept<T>(s: seq<T>, keep: T -> bool)
    requires forall i :: 0 <= i < |s| ==> keep(s[i])
    ensures Filter(s, keep) == s
  {
    if s != [] {
      FilterAllKept(s[1..], keep);
    }
  }

  lemma {:induction false} SubsequenceReflexive<T>(s: seq<T>)
    ensures IsSubsequence(s, s)
  {
    if s != [] {
      SubsequenceReflexive(s[1..]);
    }
  }

  /** No value occurs twice. */
  predicate Distinct<T(==)>(s: seq<T>)
  {
    forall i, j :: 0 <= i < j < |s| ==> s[i] != s[j]
  }

  /** Filtering a list without repeats gives a list without repeats. */
  lemma {:induction false} FilterKeepsDistinct<T>(s: seq<T>, keep: T -> bool)
    requires Distinct(s)
    ensures Distinct(Filter(s, keep))
  {
    if s != [] {
      var tail := s[1..];
      assert Distinct(tail) by {
        forall i, j | 0 <= i < j < |tail| ensures tail[i] != tail[j] {
          assert s[i + 1] != s[j + 1];
        }
      }
      FilterKeepsDistinct(tail, keep);
      var ft := Filter(tail, keep);
      if keep(s[0]) {
        assert s[0] !in tail by {
          forall j | 0 <= j < |tail| ensures tail[j] != s[0] {
            assert s[0] != s[j + 1];
          }
        }
        assert s[0] !in ft;
        var r := [s[0]] + ft;
        forall i, j | 0 <= i < j < |r| ensures r[i] != r[j] {
          if i == 0 {
            assert r[j] == ft[j - 1];
          } else {
            assert r[i] == ft[i - 1] && r[j] == ft[j - 1];
          }
        }
      }
    }
  }

  /** Every element of a subsequence comes from the sequence. */
  lemma {:induction false} SubsequenceMembers<T>(r: seq<T>, s: seq<T>, i: nat)
    requires IsSubsequence(r, s) && i < |r|
    ensures r[i] in s
  {
    if r[0] == s[0] && IsSubsequence(r[1..], s[1..]) {
      if i > 0 {
        SubsequenceMembers(r[1..], s[1..], i - 1);
      }
    } else {
      SubsequenceMembers(r, s[1..], i);
    }
  }

  /** Taking one element out of `s` takes it out of the kept part, if it was kept. */
  lemma FilterLengthRemove<T>(s: seq<T>, i: nat, keep: T -> bool)
    requires i < |s|
    ensures |Filter(s, keep)| == |Filter(s[..i] + s[i + 1..], keep)| + (if keep(s[i]) then 1 else 0)
  {
    assert s == (s[..i] + [s[i]]) + s[i + 1..];
    FilterAppend(s[..i] + [s[i]], s[i + 1..], keep);
    FilterAppend(s[..i], [s[i]], keep);
    FilterAppend(s[..i], s[i + 1..], keep);
  }

  /** The number of kept elements depends only on the multiset of elements. */
  lemma {:induction false} FilterLengthPermutation<T>(s: seq<T>, t: seq<T>, keep: T -> bool)
    requires multiset(s) == multiset(t)
    ensures |Filter(s, keep)| == |Filter(t, keep)|
  {
    if s == [] {
      assert |t| == |multiset(t)| == 0;
    } else {
      var x := s[0];
      assert x in multiset(t);
      var j :| 0 <= j < |t| && t[j] == x;
      RemoveOne(t, j);
      RemoveOne(s, 0);
      assert s[..0] + s[1..] == s[1..];
      FilterLengthPermutation(s[1..], t[..j] + t[j + 1..], keep);
      FilterLengthRemove(t, j, keep);
    }
  }

  lemma RemoveOne<T>(s: seq<T>, i: nat)
    requires i < |s|
    ensures multiset(s[..i] + s[i + 1..]) == multiset(s) - multiset{s[i]}
  {
    assert s == s[..i] + [s[i]] + s[i + 1..];
  }

  /** The sum of the weights of the elements of `s`, each occurrence counted. */
  function Sum<T>(s: seq<T>, w: T -> nat): nat
  {
    if s == [] then 0 else Sum(s[..|s| - 1], w) + w(s[|s| - 1])
  }

  lemma SumAppend<T>(s: seq<T>, x: T, w: T -> nat)
    ensures Sum(s + [x], w) == Sum(s, w) + w(x)
  {
    assert (s + [x])[..|s|] == s;
  }

  /** Taking one element out of `s` takes its weight out of the sum. */
  lemma {:induction false} SumRemove<T>(s: seq<T>, i: nat, w: T -> nat)
    requires i < |s|
    ensures Sum(s, w) == Sum(s[..i] + s[i + 1..], w) + w(s[i])
  {
    var n := |s|;
    var init := s[..n - 1];
    if i == n - 1 {
      assert s[..i] + s[i + 1..] == init;
    } else {
      SumRemove(init, i, w);
      assert s[..i] + s[i + 1..] == (init[..i] + init[i + 1..]) + [s[n - 1]];
      SumAppend(init[..i] + init[i + 1..], s[n - 1], w);
    }
  }

  /** The sum depends only on the multiset of elements. */
  lemma {:induction false} SumPermutation<T>(s: seq<T>, t: seq<T>, w: T -> nat)
    requires multiset(s) == multiset(t)
    ensures Sum(s, w) == Sum(t, w)
  {
    if s == [] {
      assert |t| == |multiset(t)| == 0;
    } else {
      var n := |s|;
      var last := s[n - 1];
      assert last in multiset(t);
      var j :| 0 <= j < |t| && t[j] == last;
      RemoveOne(t, j);
      RemoveOne(s, n - 1);
      assert s[..n - 1] + s[n..] == s[..n - 1];
      SumPermutation(s[..n - 1], t[..j] + t[j + 1..], w);
      SumRemove(t, j, w);
    }
  }
}
