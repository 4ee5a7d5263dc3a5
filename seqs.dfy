/** Sequence utilities: filtering, flattening, order-preserving deduplication, extrema. */
module Seqs {
  import opened Wrappers

  /** The order-preserving sub-sequence of `s` whose elements satisfy `p`. */
  function Filter<T>(p: T -> bool, s: seq<T>): (r: seq<T>)
    ensures |r| <= |s|
    decreases |s|
  {
    if s == [] then [] else (if p(s[0]) then [s[0]] else []) + Filter(p, s[1..])
  }

  /** `Filter` keeps exactly the elements that satisfy `p`. */
  lemma {:induction false} FilterMembers<T>(p: T -> bool, s: seq<T>)
    ensures forall k :: 0 <= k < |Filter(p, s)| ==> Filter(p, s)[k] in s && p(Filter(p, s)[k])
    ensures forall k :: 0 <= k < |s| && p(s[k]) ==> s[k] in Filter(p, s)
    decreases |s|
  {
    if s != [] {
      FilterMembers(p, s[1..]);
      var r := Filter(p, s);
      var rest := Filter(p, s[1..]);
      var head := if p(s[0]) then [s[0]] else [];
      assert r == head + rest;
      forall k | 0 <= k < |r| ensures r[k] in s && p(r[k]) {
        if k < |head| {
          assert r[k] == s[0];
        } else {
          assert r[k] == rest[k - |head|];
        }
      }
      forall k | 0 <= k < |s| && p(s[k]) ensures s[k] in r {
        if k > 0 {
          assert s[k] == s[1..][k - 1];
        }
      }
    }
  }

  /** Filters with predicates that agree on the elements of `s` keep the same elements. */
  lemma {:induction false} FilterCongruence<T>(p: T -> bool, q: T -> bool, s: seq<T>)
    requires forall k :: 0 <= k < |s| ==> p(s[k]) == q(s[k])
    ensures Filter(p, s) == Filter(q, s)
    decreases |s|
  {
    if s != [] {
      assert forall k :: 0 <= k < |s[1..]| ==> s[1..][k] == s[k + 1];
      FilterCongruence(p, q, s[1..]);
    }
  }

  lemma {:induction false} FilterAppend<T>(p: T -> bool, a: seq<T>, b: seq<T>)
    ensures Filter(p, a + b) == Filter(p, a) + Filter(p, b)
    decreases |a|
  {
    if a == [] {
      assert a + b == b;
    } else {
      assert (a + b)[1..] == a[1..] + b;
      FilterAppend(p, a[1..], b);
      var h := if p(a[0]) then [a[0]] else [];
      assert (a + b)[0] == a[0];
      assert Filter(p, a + b) == h + (Filter(p, a[1..]) + Filter(p, b));
      assert h + (Filter(p, a[1..]) + Filter(p, b)) == (h + Filter(p, a[1..])) + Filter(p, b);
    }
  }

  /** A predicate that holds of nothing selects nothing. */
  lemma {:induction false} FalseFilter<T>(never: T -> bool, s: seq<T>)
    requires forall x :: !never(x)
    ensures Filter(never, s) == []
    decreases |s|
  {
    if s != [] {
      FalseFilter(never, s[1..]);
    }
  }

  lemma FilterSnoc<T>(p: T -> bool, s: seq<T>, x: T)
    ensures Filter(p, s + [x]) == Filter(p, s) + (if p(x) then [x] else [])
  {
    FilterAppend(p, s, [x]);
    assert [x][1..] == [];
    assert Filter(p, [x]) == (if p(x) then [x] else []) + [];
  }

  /** `r` is obtained from `s` by deleting elements, keeping the order of the rest. */
  ghost predicate SubsequenceOf<T>(r: seq<T>, s: seq<T>)
    decreases |s|
  {
    r == [] || (s != [] && ((r[0] == s[0] && SubsequenceOf(r[1..], s[1..])) || SubsequenceOf(r, s[1..])))
  }

  /** `Filter` keeps the relative order of what it keeps. */
  lemma {:induction false} FilterIsSubsequence<T>(p: T -> bool, s: seq<T>)
    ensures SubsequenceOf(Filter(p, s), s)
    decreases |s|
  {
    if s != [] {
      FilterIsSubsequence(p, s[1..]);
      if p(s[0]) {
        assert Filter(p, s) == [s[0]] + Filter(p, s[1..]);
        assert Filter(p, s)[1..] == Filter(p, s[1..]);
      } else {
        assert Filter(p, s) == Filter(p, s[1..]);
      }
    }
  }

  lemma SplitLast<T>(s: seq<T>)
    requires s != []
    ensures s == s[..|s| - 1] + [s[|s| - 1]]
  {
  }

  lemma TakeSnoc<T>(s: seq<T>, i: nat)
    requires i < |s|
    ensures s[..i + 1] == s[..i] + [s[i]]
  {
  }

  /** Concatenation of a sequence of sequences. */
  function Flatten<T>(ss: seq<seq<T>>): (r: seq<T>)
    decreases |ss|
  {
    if ss == [] then [] else Flatten(ss[..|ss| - 1]) + ss[|ss| - 1]
  }

  lemma FlattenSnoc<T>(ss: seq<seq<T>>, s: seq<T>)
    ensures Flatten(ss + [s]) == Flatten(ss) + s
  {
    assert (ss + [s])[..|ss|] == ss;
  }

  lemma {:induction false} FlattenCons<T>(s: seq<T>, ss: seq<seq<T>>)
    ensures Flatten([s] + ss) == s + Flatten(ss)
    decreases |ss|
  {
    if ss == [] {
      assert [s] + ss == [] + [s];
      FlattenSnoc([], s);
    } else {
      var init, last := ss[..|ss| - 1], ss[|ss| - 1];
      FlattenCons(s, init);
      assert [s] + ss == ([s] + init) + [last];
      FlattenSnoc([s] + init, last);
      SplitLast(ss);
      FlattenSnoc(init, last);
    }
  }

  /** No element occurs twice. */
  predicate Distinct<T(==)>(s: seq<T>)
  {
    forall i, j :: 0 <= i < j < |s| ==> s[i] != s[j]
  }

  /** Index of the first occurrence of `x` in `s`. */
  function FirstIndex<T(==)>(s: seq<T>, x: T): (i: nat)
    requires x in s
    ensures i < |s| && s[i] == x
    ensures forall j :: 0 <= j < i ==> s[j] != x
    decreases |s|
  {
    if s[0] == x then 0 else 1 + FirstIndex(s[1..], x)
  }

  /**
   * The elements of `s` without repetitions, each at its first occurrence:
   * the order of a JavaScript `new Set(...)` and of the keys of a Python dict
   * or a JavaScript Map filled in the order of `s`.
   */
  function Dedup<T(==,!new)>(s: seq<T>): (r: seq<T>)
    ensures forall x :: x in r <==> x in s
    ensures Distinct(r)
    ensures |r| <= |s|
    decreases |s|
  {
    if s == [] then []
    else
      var init := s[..|s| - 1];
      assert s == init + [s[|s| - 1]];
      var d := Dedup(init);
      if s[|s| - 1] in init then d else d + [s[|s| - 1]]
  }

  lemma DedupSnoc<T(!new)>(s: seq<T>, x: T)
    ensures Dedup(s + [x]) == if x in s then Dedup(s) else Dedup(s) + [x]
  {
    assert (s + [x])[..|s|] == s;
  }

  /** A sequence without repetitions is its own `Dedup`. */
  lemma {:induction false} DedupOfDistinct<T(!new)>(s: seq<T>)
    requires Distinct(s)
    ensures Dedup(s) == s
    decreases |s|
  {
    if s != [] {
      var init := s[..|s| - 1];
      assert s == init + [s[|s| - 1]];
      DedupOfDistinct(init);
      assert s[|s| - 1] !in init by {
        forall k | 0 <= k < |init| ensures init[k] != s[|s| - 1] {
          assert init[k] == s[k];
        }
      }
    }
  }

  /** A value listed twice is listed once. */
  lemma DedupPair<T(!new)>(x: T)
    ensures Dedup([x, x]) == [x]
  {
    DedupSnoc([x], x);
    DedupSnoc([], x);
    assert [x, x] == [x] + [x];
    assert [x] == [] + [x];
  }

  /** In `Dedup(s)` the elements come in the order of their first occurrence in `s`. */
  lemma {:induction false} DedupFirstOccurrenceOrder<T(!new)>(s: seq<T>, i: nat, j: nat)
    requires i < j < |Dedup(s)|
    ensures Dedup(s)[i] in s && Dedup(s)[j] in s
    ensures FirstIndex(s, Dedup(s)[i]) < FirstIndex(s, Dedup(s)[j])
    decreases |s|
  {
    var init := s[..|s| - 1];
    var last := s[|s| - 1];
    assert s == init + [last];
    var d := Dedup(init);
    var x, y := Dedup(s)[i], Dedup(s)[j];
    if last in init {
      DedupFirstOccurrenceOrder(init, i, j);
      FirstIndexPrefix(init, last, x);
      FirstIndexPrefix(init, last, y);
    } else {
      assert Dedup(s) == d + [last];
      if j < |d| {
        DedupFirstOccurrenceOrder(init, i, j);
        FirstIndexPrefix(init, last, x);
        FirstIndexPrefix(init, last, y);
      } else {
        assert y == last;
        assert x in d && x in init;
        FirstIndexPrefix(init, last, x);
        assert FirstIndex(s, y) == |s| - 1;
      }
    }
  }

  /** Index of the last occurrence of `x` in `s`. */
  function LastIndex<T(==)>(s: seq<T>, x: T): (i: nat)
    requires x in s
    ensures i < |s| && s[i] == x
    ensures forall j :: i < j < |s| ==> s[j] != x
    decreases |s|
  {
    if s[|s| - 1] == x then |s| - 1
    else
      assert x in s[..|s| - 1] by {
        var k :| 0 <= k < |s| && s[k] == x;
        assert s[..|s| - 1][k] == x;
      }
      LastIndex(s[..|s| - 1], x)
  }

  lemma LastIndexSnoc<T>(s: seq<T>, last: T, x: T)
    requires x in s + [last]
    ensures x == last ==> LastIndex(s + [last], x) == |s|
    ensures x != last ==> x in s && LastIndex(s + [last], x) == LastIndex(s, x)
  {
    assert (s + [last])[..|s|] == s;
    if x != last {
      var k :| 0 <= k < |s + [last]| && (s + [last])[k] == x;
      assert k < |s| && s[k] == x;
    }
  }

  lemma FirstIndexPrefix<T>(init: seq<T>, last: T, x: T)
    requires x in init
    ensures x in init + [last]
    ensures FirstIndex(init + [last], x) == FirstIndex(init, x)
  {
    var s := init + [last];
    var i := FirstIndex(init, x);
    assert s[i] == x;
  }

  /** `m` is the least element of `xs`. */
  predicate IsLeast(m: int, xs: seq<int>)
  {
    m in xs && forall x :: x in xs ==> m <= x
  }

  /** `m` is the greatest element of `xs`. */
  predicate IsGreatest(m: int, xs: seq<int>)
  {
    m in xs && forall x :: x in xs ==> x <= m
  }

  /** Python's `min(xs) if xs else None`, JavaScript's `xs.length > 0 ? Math.min(...xs) : null`. */
  function MinOf(xs: seq<int>): (r: Option<int>)
    ensures r.None? <==> xs == []
    ensures r.Some? ==> IsLeast(r.value, xs)
    decreases |xs|
  {
    if xs == [] then None
    else
      match MinOf(xs[1..])
      case None => Some(xs[0])
      case Some(m) =>
        assert xs == [xs[0]] + xs[1..];
        Some(if xs[0] <= m then xs[0] else m)
  }

  /** Python's `max(xs) if xs else None`, JavaScript's `xs.length > 0 ? Math.max(...xs) : null`. */
  function MaxOf(xs: seq<int>): (r: Option<int>)
    ensures r.None? <==> xs == []
    ensures r.Some? ==> IsGreatest(r.value, xs)
    decreases |xs|
  {
    if xs == [] then None
    else
      match MaxOf(xs[1..])
      case None => Some(xs[0])
      case Some(m) =>
        assert xs == [xs[0]] + xs[1..];
        Some(if xs[0] >= m then xs[0] else m)
  }

  /** The least and the greatest element are each unique, so any two characterisations agree. */
  lemma LeastUnique(a: int, b: int, xs: seq<int>)
    requires IsLeast(a, xs) && IsLeast(b, xs)
    ensures a == b
  {
  }

  lemma GreatestUnique(a: int, b: int, xs: seq<int>)
    requires IsGreatest(a, xs) && IsGreatest(b, xs)
    ensures a == b
  {
  }
}
