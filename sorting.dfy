// LINQ's Where, OrderBy and OrderByDescending over in-memory sequences.
// OrderBy is a stable sort by a key comparison; the comparison is a
// parameter (a total preorder), since string order is culture data.
module Sorting {

  /** A comparison OrderBy can use: total and transitive. */
  ghost predicate TotalPreorder<T(!new)>(le: (T, T) -> bool)
  {
    (forall a, b :: le(a, b) || le(b, a)) &&
    (forall a, b, c :: le(a, b) && le(b, c) ==> le(a, c))
  }

  predicate SortedBy<T>(s: seq<T>, le: (T, T) -> bool)
  {
    forall i, j :: 0 <= i < j < |s| ==> le(s[i], s[j])
  }

  /** x placed in front of the first element it does not follow. */
  function Insert<T>(x: T, s: seq<T>, le: (T, T) -> bool): (r: seq<T>)
    ensures |r| == |s| + 1
    ensures multiset(r) == multiset(s) + multiset{x}
  {
    if s == [] then [x]
    else if le(x, s[0]) then [x] + s
    else
      assert s == [s[0]] + s[1..];
      [s[0]] + Insert(x, s[1..], le)
  }

  /** OrderBy: a stable insertion sort. */
  function SortBy<T>(s: seq<T>, le: (T, T) -> bool): (r: seq<T>)
    ensures multiset(r) == multiset(s)
    ensures |r| == |s|
  {
    if s == [] then []
    else
      assert s == [s[0]] + s[1..];
      Insert(s[0], SortBy(s[1..], le), le)
  }

  lemma {:induction false} InsertSorted<T(!new)>(x: T, s: seq<T>, le: (T, T) -> bool)
    requires TotalPreorder(le) && SortedBy(s, le)
    ensures SortedBy(Insert(x, s, le), le)
  {
    if s != [] && !le(x, s[0]) {
      InsertSorted(x, s[1..], le);
      var r := Insert(x, s, le);
      var t := Insert(x, s[1..], le);
      assert r == [s[0]] + t;
      assert le(s[0], x);
      forall j | 0 < j < |r|
        ensures le(s[0], r[j])
      {
        assert r[j] in multiset(t);
        assert r[j] in multiset(s[1..]) + multiset{x};
        if r[j] != x {
          assert r[j] in s[1..];
        }
      }
    }
  }

  /** OrderBy yields a sorted permutation of its input. */
  lemma {:induction false} SortBySorted<T(!new)>(s: seq<T>, le: (T, T) -> bool)
    requires TotalPreorder(le)
    ensures SortedBy(SortBy(s, le), le)
    ensures multiset(SortBy(s, le)) == multiset(s)
  {
    if s != [] {
      SortBySorted(s[1..], le);
      InsertSorted(s[0], SortBy(s[1..], le), le);
    }
  }

  /** Where: the elements satisfying p, in order. */
  function Filter<T(!new)>(p: T -> bool, s: seq<T>): (r: seq<T>)
    ensures |r| <= |s|
    ensures forall x :: x in r <==> x in s && p(x)
    ensures multiset(r) <= multiset(s)
  {
    if s == [] then []
    else
      assert s == [s[0]] + s[1..];
      (if p(s[0]) then [s[0]] else []) + Filter(p, s[1..])
  }

  /** Filtering keeps exactly the satisfying occurrences. */
  lemma {:induction false} FilterCount<T(!new)>(p: T -> bool, s: seq<T>, x: T)
    ensures multiset(Filter(p, s))[x] == if p(x) then multiset(s)[x] else 0
  {
    if s != [] {
      assert s == [s[0]] + s[1..];
      FilterCount(p, s[1..], x);
    }
  }

  /** The elements le ranks equal to c. */
  function Ties<T>(le: (T, T) -> bool, c: T): T -> bool
  {
    (z: T) => le(z, c) && le(c, z)
  }

  /** Insert puts x before every element ranked equal to it that it passes. */
  lemma {:induction false} InsertTies<T(!new)>(x: T, s: seq<T>, le: (T, T) -> bool, c: T)
    requires TotalPreorder(le)
    ensures Filter(Ties(le, c), Insert(x, s, le)) == Filter(Ties(le, c), [x] + s)
  {
    var e := Ties(le, c);
    if s != [] && !le(x, s[0]) {
      var t := s[1..];
      var inserted := Insert(x, t, le);
      assert s == [s[0]] + t;
      assert Insert(x, s, le) == [s[0]] + inserted;
      InsertTies(x, t, le, c);
      FilterConcat(e, [s[0]], inserted);
      FilterConcat(e, [x], t);
      FilterConcat(e, [x], s);
      FilterConcat(e, [s[0]], t);
      var a, b, rest := Filter(e, [s[0]]), Filter(e, [x]), Filter(e, t);
      var first := s[0];
      assert !le(x, c) || !le(c, first);
      assert a == [] || b == [];
      assert Filter(e, Insert(x, s, le)) == a + (b + rest);
      assert Filter(e, [x] + s) == b + (a + rest);
      if a == [] {
        assert a + rest == rest;
        assert a + (b + rest) == b + rest;
      } else {
        assert b + rest == rest;
        assert b + (a + rest) == a + rest;
      }
    }
  }

  /** OrderBy is stable: elements ranked equal keep their relative order. */
  lemma {:induction false} SortByStable<T(!new)>(s: seq<T>, le: (T, T) -> bool, c: T)
    requires TotalPreorder(le)
    ensures Filter(Ties(le, c), SortBy(s, le)) == Filter(Ties(le, c), s)
  {
    if s != [] {
      SortByStable(s[1..], le, c);
      InsertTies(s[0], SortBy(s[1..], le), le, c);
      assert ([s[0]] + SortBy(s[1..], le))[1..] == SortBy(s[1..], le);
      assert s[1..] == s[1..];
    }
  }

  /** Distinct: the first occurrence of each element, in order. */
  function Distinct<T(==,!new)>(s: seq<T>): seq<T>
  {
    DistinctFrom(s, [])
  }

  /** The elements of s not in `seen`, first occurrences only. */
  function DistinctFrom<T(==,!new)>(s: seq<T>, seen: seq<T>): seq<T>
    decreases s
  {
    if s == [] then []
    else if s[0] in seen then DistinctFrom(s[1..], seen)
    else [s[0]] + DistinctFrom(s[1..], seen + [s[0]])
  }

  /** The position of the first occurrence of x in s. */
  function FirstIndex<T(==)>(s: seq<T>, x: T): (i: nat)
    requires x in s
    ensures i < |s| && s[i] == x && forall k :: 0 <= k < i ==> s[k] != x
  {
    if s[0] == x then 0 else 1 + FirstIndex(s[1..], x)
  }

  /** DistinctFrom keeps the elements not in `seen`, each once, in the
      order of their first occurrences. */
  lemma {:induction false} DistinctFromSpec<T(!new)>(s: seq<T>, seen: seq<T>)
    ensures var r := DistinctFrom(s, seen);
      (forall x :: x in r <==> x in s && x !in seen)
      && (forall i, j :: 0 <= i < j < |r| ==> r[i] != r[j])
      && (forall i, j :: 0 <= i < j < |r| ==> FirstIndex(s, r[i]) < FirstIndex(s, r[j]))
    decreases s
  {
    if s != [] {
      assert forall x :: x in s <==> x == s[0] || x in s[1..];
      if s[0] in seen {
        var r := DistinctFrom(s[1..], seen);
        DistinctFromSpec(s[1..], seen);
        forall i, j | 0 <= i < j < |r|
          ensures FirstIndex(s, r[i]) < FirstIndex(s, r[j])
        {
          assert r[i] != s[0] && r[j] != s[0];
        }
      } else {
        var rest := DistinctFrom(s[1..], seen + [s[0]]);
        DistinctFromSpec(s[1..], seen + [s[0]]);
        assert s[0] !in rest;
        var r := [s[0]] + rest;
        forall i, j | 0 <= i < j < |r|
          ensures r[i] != r[j] && FirstIndex(s, r[i]) < FirstIndex(s, r[j])
        {
          if i > 0 {
            assert r[i] == rest[i - 1] && r[j] == rest[j - 1];
          } else {
            assert r[j] in rest;
          }
        }
      }
    }
  }

  /** Distinct keeps every element once, in the order of its first
      occurrence, and adds nothing. */
  lemma DistinctSpec<T(!new)>(s: seq<T>)
    ensures forall x :: x in Distinct(s) <==> x in s
    ensures forall i, j :: 0 <= i < j < |Distinct(s)| ==> Distinct(s)[i] != Distinct(s)[j]
    ensures forall i, j :: 0 <= i < j < |Distinct(s)| ==> FirstIndex(s, Distinct(s)[i]) < FirstIndex(s, Distinct(s)[j])
  {
    DistinctFromSpec(s, []);
  }

  /** Where over a concatenation filters each part. */
  lemma {:induction false} FilterConcat<T(!new)>(p: T -> bool, a: seq<T>, b: seq<T>)
    ensures Filter(p, a + b) == Filter(p, a) + Filter(p, b)
  {
    if a == [] {
      assert a + b == b;
    } else {
      assert (a + b)[1..] == a[1..] + b;
      FilterConcat(p, a[1..], b);
    }
  }

  /** Two Where clauses in a row keep, in order, what their conjunction
      keeps. */
  lemma {:induction false} FilterFilter<T(!new)>(p: T -> bool, q: T -> bool, pq: T -> bool, s: seq<T>)
    requires forall x :: pq(x) == (p(x) && q(x))
    ensures Filter(q, Filter(p, s)) == Filter(pq, s)
  {
    if s != [] {
      FilterFilter(p, q, pq, s[1..]);
      FilterConcat(q, if p(s[0]) then [s[0]] else [], Filter(p, s[1..]));
    }
  }

  /** OrderByDescending's comparison: the reverse order. */
  function Flip<T>(le: (T, T) -> bool): (T, T) -> bool
  {
    (a: T, b: T) => le(b, a)
  }

  lemma FlipPreorder<T(!new)>(le: (T, T) -> bool)
    requires TotalPreorder(le)
    ensures TotalPreorder(Flip(le))
  {
  }

  /** A sequence without repetitions holds each of its elements once. */
  lemma {:induction false} NoRepeatsCount<T>(r: seq<T>, x: T)
    requires forall i, j :: 0 <= i < j < |r| ==> r[i] != r[j]
    ensures multiset(r)[x] == if x in r then 1 else 0
  {
    if r != [] {
      assert r == [r[0]] + r[1..];
      forall i, j | 0 <= i < j < |r| - 1
        ensures r[1..][i] != r[1..][j]
      {
        assert r[1..][i] == r[i + 1] && r[1..][j] == r[j + 1];
      }
      NoRepeatsCount(r[1..], x);
    }
  }

  /** Distinct followed by OrderBy lists every value once, sorted. */
  lemma SortedDistinct<T(!new)>(s: seq<T>, le: (T, T) -> bool)
    requires TotalPreorder(le)
    ensures var r := SortBy(Distinct(s), le);
      SortedBy(r, le) && forall x :: multiset(r)[x] == if x in s then 1 else 0
  {
    var d := Distinct(s);
    DistinctSpec(s);
    SortBySorted(d, le);
    forall x
      ensures multiset(SortBy(d, le))[x] == if x in s then 1 else 0
    {
      NoRepeatsCount(d, x);
    }
  }
}
