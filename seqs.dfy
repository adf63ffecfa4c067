/** Sequence operations that the pages use through `Array.prototype.filter`, `find` and `reduce`. */
module Seqs {
  import opened Wrappers

  /** `sub` is obtained from `s` by deleting elements: order kept, nothing duplicated or invented. */
  predicate IsSubsequence<T(==)>(sub: seq<T>, s: seq<T>)
    decreases |s|
  {
    if sub == [] then true
    else if s == [] then false
    else (sub[0] == s[0] && IsSubsequence(sub[1..], s[1..])) || IsSubsequence(sub, s[1..])
  }

  /** Every sequence is a subsequence of itself. */
  lemma {:induction false} SubsequenceOfSelf<T>(s: seq<T>)
    ensures IsSubsequence(s, s)
  {
    if s != [] {
      SubsequenceOfSelf(s[1..]);
    }
  }

  /** `Array.prototype.filter`: the elements of `s` that satisfy `p`, in their original order. */
  function Filter<T(==)>(s: seq<T>, p: T -> bool): (r: seq<T>)
    ensures |r| <= |s|
    ensures forall x :: x in r ==> x in s && p(x)
    ensures forall i :: 0 <= i < |s| && p(s[i]) ==> s[i] in r
    ensures IsSubsequence(r, s)
    ensures forall i {:trigger multiset(r)[s[i]]} :: 0 <= i < |s| ==> multiset(r)[s[i]] == if p(s[i]) then multiset(s)[s[i]] else 0
  {
    if s == [] then []
    else
      assert s == [s[0]] + s[1..];
      if p(s[0]) then [s[0]] + Filter(s[1..], p)
      else Filter(s[1..], p)
  }

  /** A filter whose predicate holds everywhere keeps the whole sequence. */
  lemma {:induction false} FilterAll<T>(s: seq<T>, p: T -> bool)
    requires forall x :: x in s ==> p(x)
    ensures Filter(s, p) == s
  {
    if s != [] {
      FilterAll(s[1..], p);
    }
  }

  /** A filter whose predicate holds nowhere keeps nothing. */
  lemma {:induction false} FilterNone<T>(s: seq<T>, p: T -> bool)
    requires forall x :: x in s ==> !p(x)
    ensures Filter(s, p) == []
  {
    if s != [] {
      FilterNone(s[1..], p);
    }
  }

  /** Filtering distributes over concatenation. */
  lemma {:induction false} FilterAppend<T>(s: seq<T>, t: seq<T>, p: T -> bool)
    ensures Filter(s + t, p) == Filter(s, p) + Filter(t, p)
  {
    if s == [] {
      assert s + t == t;
    } else {
      assert (s + t)[1..] == s[1..] + t;
      FilterAppend(s[1..], t, p);
    }
  }

  /** Filters with predicates that agree on the elements of `s` keep the same elements. */
  lemma {:induction false} FilterCongruent<T>(s: seq<T>, p: T -> bool, q: T -> bool)
    requires forall i :: 0 <= i < |s| ==> p(s[i]) == q(s[i])
    ensures Filter(s, p) == Filter(s, q)
  {
    if s != [] {
      FilterCongruent(s[1..], p, q);
    }
  }

  /** Filtering out one rejected element between two kept runs leaves the two runs. */
  lemma FilterDropsOne<T>(pre: seq<T>, x: T, post: seq<T>, p: T -> bool)
    requires forall y :: y in pre ==> p(y)
    requires forall y :: y in post ==> p(y)
    requires !p(x)
    ensures Filter(pre + [x] + post, p) == pre + post
  {
    FilterAll(pre, p);
    FilterAll(post, p);
    assert Filter([x], p) == [] by {
      assert [x][1..] == [];
    }
    var mid := pre + [x];
    FilterAppend(pre, [x], p);
    assert Filter(mid, p) == pre;
    FilterAppend(mid, post, p);
  }

  /** A predicate and its negation split a sequence: the two filters' lengths add up to the whole. */
  lemma {:induction false} FilterPartition<T>(s: seq<T>, p: T -> bool, q: T -> bool)
    requires forall i :: 0 <= i < |s| ==> q(s[i]) == !p(s[i])
    ensures |Filter(s, p)| + |Filter(s, q)| == |s|
  {
    if s != [] {
      FilterPartition(s[1..], p, q);
    }
  }

  /** The index of the first element satisfying `p`, if any. */
  function FirstIndex<T>(s: seq<T>, p: T -> bool): (r: Option<nat>)
    ensures r.Some? ==> r.value < |s| && p(s[r.value]) && forall j :: 0 <= j < r.value ==> !p(s[j])
    ensures r.None? ==> forall j :: 0 <= j < |s| ==> !p(s[j])
  {
    if s == [] then None
    else if p(s[0]) then Some(0)
    else match FirstIndex(s[1..], p)
         case None => None
         case Some(i) => Some(i + 1)
  }

  /** `Array.prototype.find`: the first element satisfying `p`, or nothing when no element does. */
  function Find<T>(s: seq<T>, p: T -> bool): (r: Option<T>)
    ensures r.None? <==> forall x :: x in s ==> !p(x)
    ensures r.Some? ==> p(r.value) && exists i :: 0 <= i < |s| && s[i] == r.value && forall j :: 0 <= j < i ==> !p(s[j])
  {
    match FirstIndex(s, p)
    case None => None
    case Some(i) => Some(s[i])
  }

  /** `find` returns what a filter would keep first, and nothing exactly when it keeps nothing. */
  lemma {:induction false} FindIsFilterHead<T>(s: seq<T>, p: T -> bool)
    ensures Find(s, p).None? <==> Filter(s, p) == []
    ensures Filter(s, p) != [] ==> Find(s, p) == Some(Filter(s, p)[0])
  {
    if s != [] && !p(s[0]) {
      FindIsFilterHead(s[1..], p);
      match FirstIndex(s[1..], p)
      case None =>
      case Some(i) =>
        assert s[1..][i] == s[i + 1];
    }
  }

  /** `new Set(s.map(f))`: the images of the elements of `s`. */
  function Image<T, U(==)>(s: seq<T>, f: T -> U): (r: set<U>)
    ensures forall i :: 0 <= i < |s| ==> f(s[i]) in r
    ensures forall y :: y in r ==> exists i :: 0 <= i < |s| && f(s[i]) == y
    ensures |r| <= |s|
  {
    if s == [] then {} else {f(s[0])} + Image(s[1..], f)
  }

  /** `new Set(s.map(f)).size`: the number of distinct images. */
  function DistinctCount<T, U(==)>(s: seq<T>, f: T -> U): (n: nat)
    ensures n <= |s|
    ensures s != [] ==> n >= 1
  {
    |Image(s, f)|
  }

  /** `reduce((sum, x) => sum + f(x), 0)`. */
  function Sum<T>(s: seq<T>, f: T -> int): int
  {
    if s == [] then 0 else f(s[0]) + Sum(s[1..], f)
  }

  /** A sum over four elements, written out. */
  lemma SumOfFour<T>(s: seq<T>, f: T -> int)
    requires |s| == 4
    ensures Sum(s, f) == f(s[0]) + f(s[1]) + f(s[2]) + f(s[3])
  {
    var t1, t2, t3 := s[1..], s[2..], s[3..];
    assert t1[1..] == t2 && t2[1..] == t3 && t3[1..] == [];
    assert Sum(t3, f) == f(s[3]);
    assert Sum(t2, f) == f(s[2]) + f(s[3]);
  }

  /** What `filter` keeps of one element. */
  function Kept<T>(x: T, p: T -> bool): (r: seq<T>)
    ensures r == [x] || r == []
  {
    if p(x) then [x] else []
  }

  /** A filter over one element keeps it exactly when it satisfies the predicate. */
  lemma FilterOfOne<T>(x: T, p: T -> bool)
    ensures Filter([x], p) == Kept(x, p)
  {
    assert [x][1..] == [];
  }

  /** A filter over four elements, written out. */
  lemma FilterOfFour<T>(s: seq<T>, p: T -> bool)
    requires |s| == 4
    ensures Filter(s, p) == Kept(s[0], p) + Kept(s[1], p) + Kept(s[2], p) + Kept(s[3], p)
  {
    var a, b, c, d := [s[0]], [s[1]], [s[2]], [s[3]];
    assert s == a + b + c + d;
    FilterAppend(a + b + c, d, p);
    FilterAppend(a + b, c, p);
    FilterAppend(a, b, p);
    FilterOfOne(s[0], p);
    FilterOfOne(s[1], p);
    FilterOfOne(s[2], p);
    FilterOfOne(s[3], p);
  }

  /** `reduce` adds from the left: a non-empty sum is the sum of all but the last element, plus the last. */
  lemma SumSnoc<T>(s: seq<T>, f: T -> int)
    requires s != []
    ensures Sum(s, f) == Sum(s[..|s| - 1], f) + f(s[|s| - 1])
  {
    var last := [s[|s| - 1]];
    assert s == s[..|s| - 1] + last;
    assert last[1..] == [];
    SumAppend(s[..|s| - 1], last, f);
  }

  /** Dropping terms from a sum of non-negative terms keeps it between 0 and the whole sum. */
  lemma {:induction false} SumFilterBounds<T>(s: seq<T>, p: T -> bool, f: T -> int)
    requires forall i :: 0 <= i < |s| ==> f(s[i]) >= 0
    ensures 0 <= Sum(Filter(s, p), f) <= Sum(s, f)
  {
    if s != [] {
      SumFilterBounds(s[1..], p, f);
      if p(s[0]) {
        assert ([s[0]] + Filter(s[1..], p))[1..] == Filter(s[1..], p);
      }
    }
  }

  /** Sums distribute over concatenation. */
  lemma {:induction false} SumAppend<T>(s: seq<T>, t: seq<T>, f: T -> int)
    ensures Sum(s + t, f) == Sum(s, f) + Sum(t, f)
  {
    if s == [] {
      assert s + t == t;
    } else {
      assert (s + t)[1..] == s[1..] + t;
      SumAppend(s[1..], t, f);
    }
  }
}
