/** `Array.prototype.filter` and `Array.prototype.find`, and what it means to keep elements in order. */
module Sequences {
  import opened Wrappers

  /** `r` is `s` with some elements left out and the others in their original order. */
  ghost predicate IsSubsequence<T>(r: seq<T>, s: seq<T>)
    decreases |s|
  {
    r == [] || (s != [] && ((r[0] == s[0] && IsSubsequence(r[1..], s[1..])) || IsSubsequence(r, s[1..])))
  }

  lemma {:induction false} SubsequenceReflexive<T>(s: seq<T>)
    ensures IsSubsequence(s, s)
    decreases |s|
  {
    if s != [] {
      SubsequenceReflexive(s[1..]);
    }
  }

  lemma {:induction false} SubsequenceTransitive<T>(a: seq<T>, b: seq<T>, c: seq<T>)
    requires IsSubsequence(a, b) && IsSubsequence(b, c)
    ensures IsSubsequence(a, c)
    decreases |c|
  {
    if a != [] {
      if b[0] == c[0] && IsSubsequence(b[1..], c[1..]) {
        if a[0] == b[0] && IsSubsequence(a[1..], b[1..]) {
          SubsequenceTransitive(a[1..], b[1..], c[1..]);
        } else {
          SubsequenceTransitive(a, b[1..], c[1..]);
        }
      } else {
        SubsequenceTransitive(a, b, c[1..]);
      }
    }
  }

  /** `s.filter(p)`: the elements of `s` that satisfy `p`, in their order. */
  function Filter<T(!new)>(s: seq<T>, p: T -> bool): (r: seq<T>)
    ensures forall x :: x in r <==> x in s && p(x)
    decreases |s|
  {
    if |s| == 0 then []
    else
      assert s == [s[0]] + s[1..];
      if p(s[0]) then [s[0]] + Filter(s[1..], p) else Filter(s[1..], p)
  }

  /** The filter keeps each passing element as often as `s` holds it, and no other. */
  lemma {:induction false} FilterMultiset<T(!new)>(s: seq<T>, p: T -> bool)
    ensures forall x :: multiset(Filter(s, p))[x] == if p(x) then multiset(s)[x] else 0
    decreases |s|
  {
    if |s| > 0 {
      assert s == [s[0]] + s[1..];
      FilterMultiset(s[1..], p);
    }
  }

  /** The filter keeps the passing elements in their original order. */
  lemma {:induction false} FilterSubsequence<T(!new)>(s: seq<T>, p: T -> bool)
    ensures IsSubsequence(Filter(s, p), s)
    decreases |s|
  {
    if |s| > 0 {
      FilterSubsequence(s[1..], p);
      if p(s[0]) {
        assert ([s[0]] + Filter(s[1..], p))[1..] == Filter(s[1..], p);
      }
    }
  }

  /** When every element passes, the filter gives `s` back unchanged. */
  lemma {:induction false} FilterKeepsAll<T(!new)>(s: seq<T>, p: T -> bool)
    ensures (forall x :: x in s ==> p(x)) ==> Filter(s, p) == s
    decreases |s|
  {
    if |s| > 0 && forall x :: x in s ==> p(x) {
      assert s[0] in s;
      assert forall x :: x in s[1..] ==> x in s;
      FilterKeepsAll(s[1..], p);
      assert s == [s[0]] + s[1..];
    }
  }

  /** Filtering twice is filtering once by the conjunction of both tests. */
  lemma {:induction false} FilterFilter<T(!new)>(s: seq<T>, p: T -> bool, q: T -> bool, both: T -> bool)
    requires forall x :: both(x) == (p(x) && q(x))
    ensures Filter(Filter(s, p), q) == Filter(s, both)
    decreases |s|
  {
    if |s| > 0 {
      FilterFilter(s[1..], p, q, both);
      if p(s[0]) {
        assert ([s[0]] + Filter(s[1..], p))[1..] == Filter(s[1..], p);
      }
    }
  }

  lemma AppendAssociative<T>(a: seq<T>, b: seq<T>, c: seq<T>)
    ensures a + (b + c) == (a + b) + c
  {
  }

  /** Filtering a list with one more element at the end adds that element when it passes. */
  lemma {:induction false} FilterSnoc<T(!new)>(s: seq<T>, x: T, p: T -> bool)
    ensures Filter(s + [x], p) == Filter(s, p) + (if p(x) then [x] else [])
    decreases |s|
  {
    var last := if p(x) then [x] else [];
    if |s| == 0 {
      assert s + [x] == [x] && [x][1..] == [];
    } else {
      var rest := Filter(s[1..], p);
      var sx := s + [x];
      assert sx[0] == s[0] && sx[1..] == s[1..] + [x];
      assert Filter(sx, p) == if p(s[0]) then [s[0]] + Filter(s[1..] + [x], p) else Filter(s[1..] + [x], p);
      FilterSnoc(s[1..], x, p);
      assert Filter(s[1..] + [x], p) == rest + last;
      if p(s[0]) {
        AppendAssociative([s[0]], rest, last);
      }
    }
  }

  /** Nothing passes the filter when no element passes the test. */
  lemma {:induction false} FilterNone<T(!new)>(s: seq<T>, p: T -> bool)
    requires forall x :: x in s ==> !p(x)
    ensures Filter(s, p) == []
    decreases |s|
  {
    if |s| > 0 {
      assert s[0] in s;
      assert forall x :: x in s[1..] ==> x in s;
      FilterNone(s[1..], p);
    }
  }

  /**
   * When the one element of a duplicate-free list that passes the test is `x`, filtering keeps
   * exactly `x`.
   */
  lemma {:induction false} FilterSingle<T(!new)>(s: seq<T>, p: T -> bool, x: T)
    requires x in s && p(x)
    requires forall y :: y in s && p(y) ==> y == x
    requires forall i, j :: 0 <= i < j < |s| ==> s[i] != s[j]
    ensures Filter(s, p) == [x]
    decreases |s|
  {
    assert s == [s[0]] + s[1..];
    if s[0] == x {
      forall y | y in s[1..] ensures !p(y) {
        var j :| 0 <= j < |s[1..]| && s[1..][j] == y;
        assert s[j + 1] == y;
      }
      FilterNone(s[1..], p);
    } else {
      FilterSingle(s[1..], p, x);
    }
  }

  /** Filters by predicates that agree on the elements of `s` give the same result. */
  lemma {:induction false} FilterCongruent<T(!new)>(s: seq<T>, p: T -> bool, q: T -> bool)
    requires forall x :: x in s ==> p(x) == q(x)
    ensures Filter(s, p) == Filter(s, q)
    decreases |s|
  {
    if |s| > 0 {
      assert forall x :: x in s[1..] ==> x in s;
      FilterCongruent(s[1..], p, q);
    }
  }

  /** Two filters applied one after the other give the same result in either order. */
  lemma FilterCommutes<T(!new)>(s: seq<T>, p: T -> bool, q: T -> bool)
    ensures Filter(Filter(s, p), q) == Filter(Filter(s, q), p)
  {
    var both := x => p(x) && q(x);
    FilterFilter(s, p, q, both);
    FilterFilter(s, q, p, both);
  }

  /** One optional step of a filter chain: `s.filter(p)` when `on`, else `s` as it is. */
  function Narrow<T(!new)>(s: seq<T>, on: bool, p: T -> bool): seq<T> {
    if on then Filter(s, p) else s
  }

  /** A skipped step keeps every element, as the filter by a test all elements pass would. */
  lemma NarrowIsFilter<T(!new)>(s: seq<T>, on: bool, p: T -> bool)
    requires !on ==> forall x :: p(x)
    ensures Narrow(s, on, p) == Filter(s, p)
  {
    FilterKeepsAll(s, p);
  }

  /** Three optional steps, each skipped only when its test keeps everything, are one filter by all three tests. */
  lemma ThreeNarrowings<T(!new)>(s: seq<T>, on1: bool, p1: T -> bool, on2: bool, p2: T -> bool, on3: bool, p3: T -> bool, all: T -> bool)
    requires !on1 ==> forall x :: p1(x)
    requires !on2 ==> forall x :: p2(x)
    requires !on3 ==> forall x :: p3(x)
    requires forall x :: all(x) == (p1(x) && p2(x) && p3(x))
    ensures Narrow(Narrow(Narrow(s, on1, p1), on2, p2), on3, p3) == Filter(s, all)
  {
    NarrowIsFilter(s, on1, p1);
    NarrowIsFilter(Filter(s, p1), on2, p2);
    NarrowIsFilter(Filter(Filter(s, p1), p2), on3, p3);
    var both := x => p1(x) && p2(x);
    FilterFilter(s, p1, p2, both);
    FilterFilter(s, both, p3, all);
  }

  /** The position of the first element of `s` that satisfies `p`. */
  function FirstIndex<T>(s: seq<T>, p: T -> bool): (r: Option<nat>)
    ensures r.Some? ==> r.value < |s| && p(s[r.value]) && forall j :: 0 <= j < r.value ==> !p(s[j])
    ensures r.None? ==> forall j :: 0 <= j < |s| ==> !p(s[j])
    decreases |s|
  {
    if |s| == 0 then None
    else if p(s[0]) then Some(0)
    else
      match FirstIndex(s[1..], p)
      case None => None
      case Some(k) => Some(k + 1)
  }

  /** `s.find(p)`: the first element of `s` that satisfies `p`, or nothing when none does. */
  function Find<T>(s: seq<T>, p: T -> bool): (r: Option<T>)
    ensures r.None? <==> forall j :: 0 <= j < |s| ==> !p(s[j])
    ensures r.Some? ==> exists k :: 0 <= k < |s| && s[k] == r.value && p(s[k]) && forall j :: 0 <= j < k ==> !p(s[j])
  {
    match FirstIndex(s, p)
    case None => None
    case Some(k) => Some(s[k])
  }
}
