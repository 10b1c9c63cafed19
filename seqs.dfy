/**
 * Order-preserving filtering and summation over sequences: the shapes of
 * `Array.prototype.filter`, `Array.prototype.reduce` and a Django
 * `QuerySet.filter` over an in-memory table.
 */
module Seqs {

  /** `a` can be obtained from `b` by deleting elements (order kept). */
  predicate IsSubsequence<T(==)>(a: seq<T>, b: seq<T>)
    decreases |b|
  {
    if a == [] then true
    else if b == [] then false
    else if a[0] == b[0] then IsSubsequence(a[1..], b[1..])
    else IsSubsequence(a, b[1..])
  }

  /** Keeps, in order, the elements on which `f` holds. */
  function Filter<T(!new)>(s: seq<T>, f: T -> bool): (r: seq<T>)
    ensures |r| <= |s|
    ensures forall x :: x in r <==> x in s && f(x)
    decreases |s|
  {
    if s == [] then []
    else (if f(s[0]) then [s[0]] else []) + Filter(s[1..], f)
  }

  lemma {:induction false} FilterIsSubsequence<T(!new)>(s: seq<T>, f: T -> bool)
    ensures IsSubsequence(Filter(s, f), s)
    decreases |s|
  {
    if s != [] {
      FilterIsSubsequence(s[1..], f);
      if f(s[0]) {
        assert Filter(s, f) == [s[0]] + Filter(s[1..], f);
        assert (Filter(s, f))[1..] == Filter(s[1..], f);
      } else {
        assert Filter(s, f) == Filter(s[1..], f);
        SkipHead(Filter(s[1..], f), s);
      }
    }
  }

  lemma {:induction false} SkipHead<T>(a: seq<T>, b: seq<T>)
    requires b != []
    requires IsSubsequence(a, b[1..])
    ensures IsSubsequence(a, b)
    decreases |b|, |a|
  {
    if a != [] && a[0] == b[0] {
      // a[1..] is a subsequence of b[1..] because a is
      DropHead(a, b[1..]);
    }
  }

  lemma {:induction false} DropHead<T>(a: seq<T>, b: seq<T>)
    requires a != []
    requires IsSubsequence(a, b)
    ensures IsSubsequence(a[1..], b)
    decreases |b|, |a|
  {
    assert b != [];
    if a[0] == b[0] {
      SkipHead(a[1..], b);
    } else {
      DropHead(a, b[1..]);
      SkipHead(a[1..], b);
    }
  }

  /** A filter that holds everywhere keeps the whole sequence. */
  lemma {:induction false} FilterKeepsAll<T(!new)>(s: seq<T>, f: T -> bool)
    requires forall i :: 0 <= i < |s| ==> f(s[i])
    ensures Filter(s, f) == s
    decreases |s|
  {
    if s != [] {
      FilterKeepsAll(s[1..], f);
    }
  }

  /** Filters that agree on every element of `s` keep the same elements. */
  lemma {:induction false} FilterSame<T(!new)>(s: seq<T>, f: T -> bool, g: T -> bool)
    requires forall x :: x in s ==> f(x) == g(x)
    ensures Filter(s, f) == Filter(s, g)
    decreases |s|
  {
    if s != [] {
      FilterSame(s[1..], f, g);
    }
  }

  /** Filtering twice is filtering once by the conjunction. */
  lemma {:induction false} FilterTwice<T(!new)>(s: seq<T>, f: T -> bool, g: T -> bool, h: T -> bool)
    requires forall x :: h(x) == (f(x) && g(x))
    ensures Filter(Filter(s, f), g) == Filter(s, h)
    decreases |s|
  {
    if s != [] {
      var rest := Filter(s[1..], f);
      FilterTwice(s[1..], f, g, h);
      assert Filter(s[1..], h) == Filter(rest, g);
      if f(s[0]) {
        var once := [s[0]] + rest;
        assert Filter(s, f) == once;
        assert once[1..] == rest;
        assert Filter(once, g) == (if g(s[0]) then [s[0]] else []) + Filter(rest, g);
      } else {
        assert Filter(s, f) == rest;
        assert !h(s[0]);
      }
    }
  }

  /** A filter that fails exactly at position `i` deletes that one element. */
  lemma {:induction false} FilterDropsOne<T(!new)>(s: seq<T>, f: T -> bool, i: nat)
    requires i < |s|
    requires !f(s[i])
    requires forall j :: 0 <= j < |s| && j != i ==> f(s[j])
    ensures Filter(s, f) == s[..i] + s[i + 1..]
    decreases |s|
  {
    var t := s[1..];
    if i == 0 {
      FilterKeepsAll(t, f);
    } else {
      forall j | 0 <= j < |t| && j != i - 1 ensures f(t[j]) {
        assert t[j] == s[j + 1];
      }
      FilterDropsOne(t, f, i - 1);
      var head, pre, post := [s[0]], t[..i - 1], t[i..];
      assert Filter(s, f) == head + (pre + post) by {
        assert f(s[0]);
      }
      assert head + pre == s[..i];
      assert post == s[i + 1..];
      assert head + (pre + post) == (head + pre) + post;
    }
  }

  /** Left fold `s.reduce((t, x) => t + f(x), 0)`. */
  function SumBy<T>(s: seq<T>, f: T -> int): int
    decreases |s|
  {
    if s == [] then 0 else SumBy(s[..|s| - 1], f) + f(s[|s| - 1])
  }

  lemma {:induction false} SumByAppend<T>(a: seq<T>, b: seq<T>, f: T -> int)
    ensures SumBy(a + b, f) == SumBy(a, f) + SumBy(b, f)
    decreases |b|
  {
    if b == [] {
      assert a + b == a;
    } else {
      var b' := b[..|b| - 1];
      assert (a + b)[..|a + b| - 1] == a + b';
      SumByAppend(a, b', f);
    }
  }

  /** The sum over one element is its term. */
  lemma SumByOne<T>(x: T, f: T -> int)
    ensures SumBy([x], f) == f(x)
  {
    assert [x][..0] == [];
  }

  /** Deleting position `i` takes its term out of the sum. */
  lemma SumByDelete<T>(s: seq<T>, i: nat, f: T -> int)
    requires i < |s|
    ensures SumBy(s[..i] + s[i + 1..], f) == SumBy(s, f) - f(s[i])
  {
    var pre, mid, post := s[..i], [s[i]], s[i + 1..];
    calc {
      SumBy(s, f);
      { assert s == (pre + mid) + post; }
      SumBy((pre + mid) + post, f);
      { SumByAppend(pre + mid, post, f); }
      SumBy(pre + mid, f) + SumBy(post, f);
      { SumByAppend(pre, mid, f); SumByOne(s[i], f); }
      SumBy(pre, f) + f(s[i]) + SumBy(post, f);
      { SumByAppend(pre, post, f); }
      SumBy(pre + post, f) + f(s[i]);
    }
  }

  /** Replacing position `i` swaps its term in the sum. */
  lemma SumByReplace<T>(s: seq<T>, i: nat, x: T, f: T -> int)
    requires i < |s|
    ensures SumBy(s[i := x], f) == SumBy(s, f) - f(s[i]) + f(x)
  {
    var t := s[i := x];
    assert t == s[..i] + [x] + s[i + 1..];
    assert s == s[..i] + [s[i]] + s[i + 1..];
    SumByAppend(s[..i] + [x], s[i + 1..], f);
    SumByAppend(s[..i], [x], f);
    SumByAppend(s[..i] + [s[i]], s[i + 1..], f);
    SumByAppend(s[..i], [s[i]], f);
    SumByOne(x, f);
    SumByOne(s[i], f);
  }

  /** Each term at least 1 makes the sum at least the length. */
  lemma {:induction false} SumByAtLeastLength<T>(s: seq<T>, f: T -> int)
    requires forall i :: 0 <= i < |s| ==> f(s[i]) >= 1
    ensures SumBy(s, f) >= |s|
    decreases |s|
  {
    if s != [] {
      SumByAtLeastLength(s[..|s| - 1], f);
    }
  }

}
