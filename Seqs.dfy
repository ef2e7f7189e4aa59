/** The array combinators the screens use, as functions on sequences: keeping the
    elements that pass a test, and adding up one number per element from the left. */
module Seqs {

  /** `b` keeps the elements of `a` in order, with possibly some dropped. */
  predicate IsSubsequence<T(==)>(a: seq<T>, b: seq<T>)
    decreases |b|
  {
    a == [] || (|b| > 0 && ((a[0] == b[0] && IsSubsequence(a[1..], b[1..])) || IsSubsequence(a, b[1..])))
  }

  /** Array `filter`: the elements satisfying `p`, in their original order. */
  function Filter<T>(s: seq<T>, p: T -> bool): (r: seq<T>)
    ensures |r| <= |s|
    ensures forall i :: 0 <= i < |r| ==> r[i] in s && p(r[i])
    ensures forall i :: 0 <= i < |s| && p(s[i]) ==> s[i] in r
    ensures IsSubsequence(r, s)
    decreases |s|
  {
    if s == [] then []
    else if p(s[0]) then [s[0]] + Filter(s[1..], p)
    else Filter(s[1..], p)
  }

  /** The filter keeps each element that passes as many times as `s` holds it, and
      drops every copy of one that fails. */
  lemma {:induction false} FilterCounts<T>(s: seq<T>, p: T -> bool)
    ensures forall i :: 0 <= i < |s| ==> multiset(Filter(s, p))[s[i]] == if p(s[i]) then multiset(s)[s[i]] else 0
    decreases |s|
  {
    if s != [] {
      assert s == [s[0]] + s[1..];
      FilterCounts(s[1..], p);
      forall i | 0 <= i < |s|
        ensures multiset(Filter(s, p))[s[i]] == if p(s[i]) then multiset(s)[s[i]] else 0
      {
        var x := s[i];
        if x !in s[1..] {
          assert x !in Filter(s[1..], p);
          assert multiset(Filter(s[1..], p))[x] == 0;
        }
      }
    }
  }

  /** A filter that keeps everything returns its input. */
  lemma {:induction false} FilterKeepsAll<T>(s: seq<T>, p: T -> bool)
    requires forall i :: 0 <= i < |s| ==> p(s[i])
    ensures Filter(s, p) == s
    decreases |s|
  {
    if s != [] {
      FilterKeepsAll(s[1..], p);
    }
  }

  /** Filtering depends only on the values the predicate takes. */
  lemma {:induction false} FilterExtensional<T>(s: seq<T>, p: T -> bool, q: T -> bool)
    requires forall i :: 0 <= i < |s| ==> p(s[i]) == q(s[i])
    ensures Filter(s, p) == Filter(s, q)
    decreases |s|
  {
    if s != [] {
      FilterExtensional(s[1..], p, q);
    }
  }

  lemma {:induction false} FilterAppend<T>(s: seq<T>, t: seq<T>, p: T -> bool)
    ensures Filter(s + t, p) == Filter(s, p) + Filter(t, p)
    decreases |s|
  {
    if s == [] {
      assert s + t == t;
    } else {
      assert (s + t)[1..] == s[1..] + t;
      FilterAppend(s[1..], t, p);
    }
  }

  /** Array `reduce` adding `f` of each element to a running sum that starts at
      `acc`: a left fold. */
  function SumLeft<T>(acc: int, s: seq<T>, f: T -> int): int
    decreases |s|
  {
    if s == [] then acc else SumLeft(acc + f(s[0]), s[1..], f)
  }

  /** The reference sum, by recursion on the front element. */
  function Sum<T>(s: seq<T>, f: T -> int): int
    decreases |s|
  {
    if s == [] then 0 else f(s[0]) + Sum(s[1..], f)
  }

  /** The left fold from `acc` adds `acc` to the plain sum. */
  lemma {:induction false} SumLeftIsSum<T>(acc: int, s: seq<T>, f: T -> int)
    ensures SumLeft(acc, s, f) == acc + Sum(s, f)
    decreases |s|
  {
    if s != [] {
      SumLeftIsSum(acc + f(s[0]), s[1..], f);
    }
  }

  lemma {:induction false} SumAppend<T>(s: seq<T>, t: seq<T>, f: T -> int)
    ensures Sum(s + t, f) == Sum(s, f) + Sum(t, f)
    decreases |s|
  {
    if s == [] {
      assert s + t == t;
    } else {
      assert (s + t)[1..] == s[1..] + t;
      SumAppend(s[1..], t, f);
    }
  }

  /** A sum of non-negative terms is non-negative. */
  lemma {:induction false} SumNonNegative<T>(s: seq<T>, f: T -> int)
    requires forall i :: 0 <= i < |s| ==> f(s[i]) >= 0
    ensures Sum(s, f) >= 0
    decreases |s|
  {
    if s != [] {
      SumNonNegative(s[1..], f);
    }
  }

  /** Splitting by a predicate splits the sum: what is kept plus what is dropped. */
  lemma {:induction false} SumFilterSplit<T>(s: seq<T>, f: T -> int, p: T -> bool, notP: T -> bool)
    requires forall i :: 0 <= i < |s| ==> notP(s[i]) == !p(s[i])
    ensures Sum(s, f) == Sum(Filter(s, p), f) + Sum(Filter(s, notP), f)
    decreases |s|
  {
    if s != [] {
      SumFilterSplit(s[1..], f, p, notP);
    }
  }
}
