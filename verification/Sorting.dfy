/** The stable comparison sort the programs call (Go's `sort.SliceStable`, `sort.Slice`,
    `sort.Strings`), as a function on sequences, with the facts its callers rely on. */
module Sorting {

  ghost predicate StrictWeakOrder<T(!new)>(less: (T, T) -> bool) {
    && (forall x :: !less(x, x))
    && (forall x, y, z :: less(x, y) && less(y, z) ==> less(x, z))
    && (forall x, y, z :: less(x, z) ==> less(x, y) || less(y, z))
  }

  ghost predicate SortedBy<T>(s: seq<T>, less: (T, T) -> bool) {
    forall i, j :: 0 <= i < j < |s| ==> !less(s[j], s[i])
  }

  /** Two different elements are never tied. */
  ghost predicate TotalOn<T(!new)>(s: seq<T>, less: (T, T) -> bool) {
    forall x, y :: x in s && y in s && x != y ==> less(x, y) || less(y, x)
  }

  /** Puts `x` before everything it ties with: in the input it came first. */
  function Insert<T>(x: T, s: seq<T>, less: (T, T) -> bool): seq<T> {
    if s == [] || !less(s[0], x) then [x] + s else [s[0]] + Insert(x, s[1..], less)
  }

  function Sort<T>(s: seq<T>, less: (T, T) -> bool): seq<T> {
    if s == [] then [] else Insert(s[0], Sort(s[1..], less), less)
  }

  lemma {:induction false} InsertKeepsElements<T>(x: T, s: seq<T>, less: (T, T) -> bool)
    ensures multiset(Insert(x, s, less)) == multiset([x]) + multiset(s)
  {
    if s != [] && less(s[0], x) {
      InsertKeepsElements(x, s[1..], less);
      assert s == [s[0]] + s[1..];
    }
  }

  lemma {:induction false} SortKeepsElements<T>(s: seq<T>, less: (T, T) -> bool)
    ensures multiset(Sort(s, less)) == multiset(s)
    ensures |Sort(s, less)| == |s|
  {
    if s != [] {
      SortKeepsElements(s[1..], less);
      InsertKeepsElements(s[0], Sort(s[1..], less), less);
      assert s == [s[0]] + s[1..];
    }
    assert |multiset(Sort(s, less))| == |multiset(s)|;
  }

  lemma SortKeepsMembers<T(!new)>(s: seq<T>, less: (T, T) -> bool)
    ensures forall x :: x in Sort(s, less) <==> x in s
  {
    SortKeepsElements(s, less);
    assert forall x :: x in Sort(s, less) <==> x in multiset(Sort(s, less));
    assert forall x :: x in s <==> x in multiset(s);
  }

  lemma {:induction false} InsertSorted<T(!new)>(x: T, s: seq<T>, less: (T, T) -> bool)
    requires StrictWeakOrder(less) && SortedBy(s, less)
    ensures SortedBy(Insert(x, s, less), less)
  {
    if s != [] && less(s[0], x) {
      InsertSorted(x, s[1..], less);
      InsertKeepsElements(x, s[1..], less);
      var rest := Insert(x, s[1..], less);
      forall j | 0 <= j < |rest| ensures !less(rest[j], s[0]) {
        assert rest[j] in multiset(rest);
        assert rest[j] == x || rest[j] in s[1..];
      }
    } else if s != [] {
      forall j | 0 <= j < |s| ensures !less(s[j], x) {
        assert j == 0 || !less(s[j], s[0]);
      }
    }
  }

  lemma {:induction false} SortSorts<T(!new)>(s: seq<T>, less: (T, T) -> bool)
    requires StrictWeakOrder(less)
    ensures SortedBy(Sort(s, less), less)
  {
    if s != [] {
      SortSorts(s[1..], less);
      InsertSorted(s[0], Sort(s[1..], less), less);
    }
  }

  lemma LeastIsFirst<T(!new)>(a: seq<T>, b: seq<T>, less: (T, T) -> bool)
    requires SortedBy(a, less) && SortedBy(b, less) && TotalOn(a, less)
    requires a != [] && b != [] && a[0] in b && b[0] in a
    ensures a[0] == b[0]
  {
    var i :| 0 <= i < |b| && b[i] == a[0];
    var j :| 0 <= j < |a| && a[j] == b[0];
  }

  lemma TailElements<T>(a: seq<T>)
    requires a != []
    ensures multiset(a[1..]) == multiset(a) - multiset{a[0]}
  {
    assert a == [a[0]] + a[1..];
  }

  lemma TailSorted<T>(a: seq<T>, less: (T, T) -> bool)
    requires a != [] && SortedBy(a, less)
    ensures SortedBy(a[1..], less)
  {
  }

  lemma TailTotal<T(!new)>(a: seq<T>, less: (T, T) -> bool)
    requires a != [] && TotalOn(a, less)
    ensures TotalOn(a[1..], less)
  {
    assert forall x :: x in a[1..] ==> x in a;
  }

  /** A sorted arrangement of elements that never tie is unique, so any sorting algorithm
      fed any arrangement of them gives the same answer. */
  lemma {:induction false} SortedIsUnique<T(!new)>(a: seq<T>, b: seq<T>, less: (T, T) -> bool)
    requires SortedBy(a, less) && SortedBy(b, less)
    requires multiset(a) == multiset(b) && TotalOn(a, less)
    ensures a == b
  {
    assert |a| == |multiset(a)| == |multiset(b)| == |b|;
    if a != [] {
      hide SortedBy, TotalOn;
      assert a[0] in multiset(b) && b[0] in multiset(a);
      LeastIsFirst(a, b, less);
      TailElements(a);
      TailElements(b);
      TailSorted(a, less);
      TailSorted(b, less);
      TailTotal(a, less);
      SortedIsUnique(a[1..], b[1..], less);
      assert a == [a[0]] + a[1..];
      assert b == [b[0]] + b[1..];
    }
  }

  ghost predicate Distinct<T>(s: seq<T>) {
    forall i, j :: 0 <= i < j < |s| ==> s[i] != s[j]
  }

  ghost predicate OnceEach<T>(m: multiset<T>) {
    forall x :: x in m ==> m[x] == 1
  }

  lemma DistinctCons<T>(s: seq<T>)
    requires s != []
    ensures Distinct(s) <==> s[0] !in s[1..] && Distinct(s[1..])
  {
    var t := s[1..];
    if Distinct(s) {
      assert forall j :: 0 <= j < |t| ==> t[j] == s[j + 1];
    }
    if s[0] !in t && Distinct(t) {
      forall i, j | 0 <= i < j < |s| ensures s[i] != s[j] {
        assert s[j] == t[j - 1];
        assert i == 0 || s[i] == t[i - 1];
      }
    }
  }

  lemma OnceEachCons<T>(s: seq<T>)
    requires s != []
    ensures OnceEach(multiset(s)) <==> s[0] !in s[1..] && OnceEach(multiset(s[1..]))
  {
    var t := s[1..];
    assert s == [s[0]] + t;
    assert multiset(s) == multiset{s[0]} + multiset(t);
    assert s[0] in t <==> s[0] in multiset(t);
    if OnceEach(multiset(s)) {
      assert s[0] in multiset(s);
      forall x | x in multiset(t) ensures multiset(t)[x] == 1 {
        assert x in multiset(s);
      }
    }
  }

  lemma {:induction false} CountsAreMultiplicities<T>(s: seq<T>)
    ensures Distinct(s) <==> OnceEach(multiset(s))
  {
    if s != [] {
      hide Distinct, OnceEach;
      CountsAreMultiplicities(s[1..]);
      DistinctCons(s);
      OnceEachCons(s);
    }
  }

  lemma DistinctSurvives<T(!new)>(s: seq<T>, t: seq<T>, less: (T, T) -> bool)
    requires forall i, j :: 0 <= i < j < |s| ==> s[i] != s[j]
    requires t == Sort(s, less)
    ensures forall i, j :: 0 <= i < j < |t| ==> t[i] != t[j]
  {
    SortKeepsElements(s, less);
    CountsAreMultiplicities(s);
    CountsAreMultiplicities(t);
  }

  function Filter<T>(s: seq<T>, keep: T -> bool): seq<T> {
    if s == [] then [] else (if keep(s[0]) then [s[0]] else []) + Filter(s[1..], keep)
  }

  lemma {:induction false} InsertIsStable<T(!new)>(x: T, s: seq<T>, less: (T, T) -> bool, tied: T -> bool)
    requires forall y :: y in s && tied(y) && tied(x) ==> !less(y, x)
    ensures Filter(Insert(x, s, less), tied) == (if tied(x) then [x] else []) + Filter(s, tied)
  {
    if s != [] && less(s[0], x) {
      InsertIsStable(x, s[1..], less, tied);
      assert Insert(x, s, less)[1..] == Insert(x, s[1..], less);
    } else {
      assert ([x] + s)[1..] == s;
    }
  }

  /** Stability: among elements that tie, the input order survives. */
  lemma {:induction false} SortIsStable<T(!new)>(s: seq<T>, less: (T, T) -> bool, tied: T -> bool)
    requires forall x, y :: x in s && y in s && tied(x) && tied(y) ==> !less(x, y)
    ensures Filter(Sort(s, less), tied) == Filter(s, tied)
  {
    if s != [] {
      SortIsStable(s[1..], less, tied);
      SortKeepsMembers(s[1..], less);
      assert s == [s[0]] + s[1..];
      var rest := Sort(s[1..], less);
      assert forall y :: y in rest ==> y in s[1..];
      assert forall y :: y in rest ==> y in s;
      assert s[0] in s;
      InsertIsStable(s[0], rest, less, tied);
    }
  }
}
