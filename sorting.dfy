/** Filtering and stable sorting of sequences: the list comprehension with an `if`,
    and Python's `sorted(xs, key=...)`, which is stable. Sorting is written as
    insertion sort; `StableSortUnique` shows that every stable sort (Timsort included)
    produces the same sequence. */
module Sorting {

  /** `le` is a total preorder: every two values compare, and `le` is transitive.
      Ties (`le(a, b) && le(b, a)` for `a != b`) are allowed, as for a sort key. */
  ghost predicate TotalPreorder<T(!new)>(le: (T, T) -> bool) {
    && (forall a, b :: le(a, b) || le(b, a))
    && (forall a, b, c :: le(a, b) && le(b, c) ==> le(a, c))
  }

  predicate SortedBy<T>(s: seq<T>, le: (T, T) -> bool) {
    forall i, j :: 0 <= i < j < |s| ==> le(s[i], s[j])
  }

  /** The values `le` ranks equal to `k`: the elements sharing `k`'s sort key. */
  function Ties<T>(le: (T, T) -> bool, k: T): T -> bool {
    x => le(x, k) && le(k, x)
  }

  /** `[x for x in s if p(x)]`. */
  function Filter<T>(s: seq<T>, p: T -> bool): (r: seq<T>)
    ensures |r| <= |s|
  {
    if s == [] then [] else (if p(s[0]) then [s[0]] else []) + Filter(s[1..], p)
  }

  /** The filter keeps every occurrence of a selected value and drops every other value. */
  lemma {:induction false} FilterCount<T>(s: seq<T>, p: T -> bool, x: T)
    ensures multiset(Filter(s, p))[x] == if p(x) then multiset(s)[x] else 0
    ensures x in Filter(s, p) <==> x in s && p(x)
  {
    if s != [] {
      FilterCount(s[1..], p, x);
      assert s == [s[0]] + s[1..];
    }
  }

  /** Filters that agree on the elements of `s` select the same subsequence. */
  lemma {:induction false} FilterCongruent<T>(s: seq<T>, p: T -> bool, q: T -> bool)
    requires forall x :: x in s ==> p(x) == q(x)
    ensures Filter(s, p) == Filter(s, q)
  {
    if s != [] {
      FilterCongruent(s[1..], p, q);
    }
  }

  /** Places `x` before the first element it is `le`, after all elements strictly below it. */
  function Insert<T>(x: T, s: seq<T>, le: (T, T) -> bool): (r: seq<T>)
    ensures multiset(r) == multiset(s) + multiset{x}
  {
    if s == [] then [x]
    else if le(x, s[0]) then [x] + s
    else
      assert s == [s[0]] + s[1..];
      [s[0]] + Insert(x, s[1..], le)
  }

  /** A stable sort: `InsertionSort(s, le)` is `sorted(s)` under the order `le`. */
  function InsertionSort<T>(s: seq<T>, le: (T, T) -> bool): (r: seq<T>)
    ensures multiset(r) == multiset(s)
  {
    if s == [] then []
    else
      assert s == [s[0]] + s[1..];
      Insert(s[0], InsertionSort(s[1..], le), le)
  }

  lemma {:induction false} InsertSorted<T(!new)>(x: T, s: seq<T>, le: (T, T) -> bool)
    requires TotalPreorder(le) && SortedBy(s, le)
    ensures SortedBy(Insert(x, s, le), le)
  {
    if s != [] && !le(x, s[0]) {
      InsertSorted(x, s[1..], le);
      var t := Insert(x, s[1..], le);
      forall z | z in t
        ensures le(s[0], z)
      {
        assert z in multiset(t);
        if z != x {
          assert z in s[1..];
        }
      }
    }
  }

  /** The sort's result is ordered by `le`. */
  lemma {:induction false} InsertionSortSorted<T(!new)>(s: seq<T>, le: (T, T) -> bool)
    requires TotalPreorder(le)
    ensures SortedBy(InsertionSort(s, le), le)
  {
    if s != [] {
      InsertionSortSorted(s[1..], le);
      InsertSorted(s[0], InsertionSort(s[1..], le), le);
    }
  }

  /** Inserting `x` keeps it ahead of every element of `s` that `p` selects together with `x`. */
  lemma {:induction false} InsertFilter<T>(x: T, s: seq<T>, le: (T, T) -> bool, p: T -> bool)
    requires forall y :: y in s && p(y) && p(x) ==> le(x, y)
    ensures Filter(Insert(x, s, le), p) == if p(x) then [x] + Filter(s, p) else Filter(s, p)
  {
    if s == [] {
      FilterCons(x, s, p);
    } else if le(x, s[0]) {
      FilterCons(x, s, p);
    } else {
      assert forall y :: y in s[1..] ==> y in s;
      InsertFilter(x, s[1..], le, p);
      InsertFilterStep(x, s, le, p);
    }
  }

  /** The recursive case of `InsertFilter`: `x` goes past the head of `s`. */
  lemma InsertFilterStep<T>(x: T, s: seq<T>, le: (T, T) -> bool, p: T -> bool)
    requires s != [] && !le(x, s[0])
    requires p(x) && p(s[0]) ==> le(x, s[0])
    requires Filter(Insert(x, s[1..], le), p)
          == if p(x) then [x] + Filter(s[1..], p) else Filter(s[1..], p)
    ensures Filter(Insert(x, s, le), p) == if p(x) then [x] + Filter(s, p) else Filter(s, p)
  {
    var t := Insert(x, s[1..], le);
    assert Insert(x, s, le) == [s[0]] + t;
    assert s == [s[0]] + s[1..];
    FilterCons(s[0], t, p);
    FilterCons(s[0], s[1..], p);
    if p(s[0]) {
      assert !p(x);
      assert Filter(Insert(x, s, le), p) == [s[0]] + Filter(s[1..], p) == Filter(s, p);
    } else {
      assert Filter(Insert(x, s, le), p) == Filter(t, p);
      assert Filter(s, p) == Filter(s[1..], p);
    }
  }

  lemma FilterCons<T>(x: T, s: seq<T>, p: T -> bool)
    ensures Filter([x] + s, p) == (if p(x) then [x] else []) + Filter(s, p)
  {
    assert ([x] + s)[1..] == s;
  }

  /** Stability: elements with equal keys keep their original relative order. */
  lemma {:induction false} InsertionSortStable<T(!new)>(s: seq<T>, le: (T, T) -> bool, k: T)
    requires TotalPreorder(le)
    ensures Filter(InsertionSort(s, le), Ties(le, k)) == Filter(s, Ties(le, k))
  {
    if s != [] {
      var p := Ties(le, k);
      var t := InsertionSort(s[1..], le);
      InsertionSortStable(s[1..], le, k);
      forall y | y in t && p(y) && p(s[0])
        ensures le(s[0], y)
      {
      }
      InsertFilter(s[0], t, le, p);
    }
  }

  /** A sorted sequence whose tie classes appear in a given order is determined by them:
      any two stable sorts of the same input agree. */
  lemma {:induction false} StableSortUnique<T(!new)>(r1: seq<T>, r2: seq<T>, le: (T, T) -> bool)
    requires TotalPreorder(le)
    requires SortedBy(r1, le) && SortedBy(r2, le)
    requires forall k :: Filter(r1, Ties(le, k)) == Filter(r2, Ties(le, k))
    ensures r1 == r2
  {
    if r1 == [] || r2 == [] {
      var r := if r1 == [] then r2 else r1;
      if r != [] {
        var k := r[0];
        FilterCount(r, Ties(le, k), k);
        assert false;
      }
    } else {
      var a, b := r1[0], r2[0];
      SortedHeadBelow(r1, r2, le, b);
      SortedHeadBelow(r2, r1, le, a);
      assert a == b by {
        var q := Ties(le, a);
        assert le(a, a) && q(a) && q(b);
        assert Filter(r1, q) == [a] + Filter(r1[1..], q);
        assert Filter(r2, q) == [b] + Filter(r2[1..], q);
        assert Filter(r1, q) == Filter(r2, q);
        assert Filter(r1, q)[0] == a && Filter(r2, q)[0] == b;
      }
      forall k
        ensures Filter(r1[1..], Ties(le, k)) == Filter(r2[1..], Ties(le, k))
      {
        var p := Ties(le, k);
        var x := if p(a) then [a] else [];
        var y := if p(b) then [b] else [];
        assert Filter(r1, p) == x + Filter(r1[1..], p);
        assert Filter(r2, p) == y + Filter(r2[1..], p);
        assert Filter(r1[1..], p) == Filter(r1, p)[|x|..];
        assert Filter(r2[1..], p) == Filter(r2, p)[|y|..];
      }
      StableSortUnique(r1[1..], r2[1..], le);
      assert r1 == [a] + r1[1..];
      assert r2 == [b] + r2[1..];
    }
  }

  /** The head of a sorted sequence is `le` every element of the other sequence's tie classes. */
  lemma SortedHeadBelow<T(!new)>(r1: seq<T>, r2: seq<T>, le: (T, T) -> bool, b: T)
    requires TotalPreorder(le) && SortedBy(r1, le) && r1 != []
    requires Filter(r1, Ties(le, b)) == Filter(r2, Ties(le, b))
    requires b in r2
    ensures le(r1[0], b)
  {
    assert le(b, b);
    FilterCount(r2, Ties(le, b), b);
    FilterCount(r1, Ties(le, b), b);
    var j :| 0 <= j < |r1| && r1[j] == b;
    if j > 0 {
      assert le(r1[0], r1[j]);
    }
  }

  /** Any sort that is ordered and stable returns exactly `InsertionSort(s, le)`. */
  lemma StableSortIsInsertionSort<T(!new)>(s: seq<T>, r: seq<T>, le: (T, T) -> bool)
    requires TotalPreorder(le)
    requires SortedBy(r, le)
    requires forall k :: Filter(r, Ties(le, k)) == Filter(s, Ties(le, k))
    ensures r == InsertionSort(s, le)
  {
    InsertionSortSorted(s, le);
    forall k
      ensures Filter(r, Ties(le, k)) == Filter(InsertionSort(s, le), Ties(le, k))
    {
      InsertionSortStable(s, le, k);
    }
    StableSortUnique(r, InsertionSort(s, le), le);
  }
}
