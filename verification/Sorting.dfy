/** Stable sorting of a list, and what fixes its result. */
module Sorting {
  ghost predicate TotalPreorder<T(!new)>(le: (T, T) -> bool) {
    && (forall x, y :: le(x, y) || le(y, x))
    && (forall x, y, z :: le(x, y) && le(y, z) ==> le(x, z))
  }

  ghost predicate Antisymmetric<T(!new)>(le: (T, T) -> bool) {
    forall x, y :: le(x, y) && le(y, x) ==> x == y
  }

  ghost predicate Sorted<T>(s: seq<T>, le: (T, T) -> bool) {
    forall i, j :: 0 <= i < j < |s| ==> le(s[i], s[j])
  }

  /** Behind everything that may stay in front of it. */
  function Insert<T>(x: T, s: seq<T>, le: (T, T) -> bool): seq<T> {
    if s == [] || !le(s[0], x) then [x] + s else [s[0]] + Insert(x, s[1..], le)
  }

  function SortBy<T>(s: seq<T>, le: (T, T) -> bool): seq<T> {
    if s == [] then [] else Insert(s[|s| - 1], SortBy(s[..|s| - 1], le), le)
  }

  function Keep<T>(s: seq<T>, p: T -> bool): seq<T> {
    if s == [] then [] else if p(s[0]) then [s[0]] + Keep(s[1..], p) else Keep(s[1..], p)
  }

  lemma {:induction false} InsertElements<T>(x: T, s: seq<T>, le: (T, T) -> bool)
    ensures multiset(Insert(x, s, le)) == multiset(s) + multiset{x}
  {
    if s != [] && le(s[0], x) {
      InsertElements(x, s[1..], le);
      assert s == [s[0]] + s[1..];
    }
  }

  lemma {:induction false} SortElements<T>(s: seq<T>, le: (T, T) -> bool)
    ensures multiset(SortBy(s, le)) == multiset(s)
  {
    if s != [] {
      SortElements(s[..|s| - 1], le);
      InsertElements(s[|s| - 1], SortBy(s[..|s| - 1], le), le);
      assert s == s[..|s| - 1] + [s[|s| - 1]];
    }
  }

  lemma {:induction false} InsertSorted<T(!new)>(x: T, s: seq<T>, le: (T, T) -> bool)
    requires TotalPreorder(le) && Sorted(s, le)
    ensures Sorted(Insert(x, s, le), le)
  {
    if s == [] {
    } else if le(s[0], x) {
      var t := Insert(x, s[1..], le);
      InsertSorted(x, s[1..], le);
      InsertElements(x, s[1..], le);
      forall k | 0 <= k < |t| ensures le(s[0], t[k]) {
        assert t[k] in multiset(t);
        assert t[k] == x || t[k] in s[1..];
      }
    } else {
      assert forall k :: 0 <= k < |s| ==> le(s[0], s[k]);
    }
  }

  lemma {:induction false} SortSorted<T(!new)>(s: seq<T>, le: (T, T) -> bool)
    requires TotalPreorder(le)
    ensures Sorted(SortBy(s, le), le)
  {
    if s != [] {
      SortSorted(s[..|s| - 1], le);
      InsertSorted(s[|s| - 1], SortBy(s[..|s| - 1], le), le);
    }
  }

  ghost predicate NoDuplicates<T>(s: seq<T>) {
    forall i, j :: 0 <= i < j < |s| ==> s[i] != s[j]
  }

  lemma {:induction false} InsertNoDuplicates<T>(x: T, s: seq<T>, le: (T, T) -> bool)
    requires NoDuplicates(s) && x !in s
    ensures NoDuplicates(Insert(x, s, le))
  {
    if s != [] && le(s[0], x) {
      var t := Insert(x, s[1..], le);
      InsertNoDuplicates(x, s[1..], le);
      InsertElements(x, s[1..], le);
      forall k | 0 <= k < |t| ensures s[0] != t[k] {
        assert t[k] in multiset(t);
        assert t[k] == x || t[k] in s[1..];
      }
    }
  }

  lemma {:induction false} SortNoDuplicates<T>(s: seq<T>, le: (T, T) -> bool)
    requires NoDuplicates(s)
    ensures NoDuplicates(SortBy(s, le))
  {
    if s != [] {
      var front, x := s[..|s| - 1], s[|s| - 1];
      SortNoDuplicates(front, le);
      SortElements(front, le);
      assert x !in front;
      assert x !in multiset(SortBy(front, le));
      InsertNoDuplicates(x, SortBy(front, le), le);
    }
  }

  /** `p` picks elements none of which is above another. */
  ghost predicate OneRank<T(!new)>(p: T -> bool, le: (T, T) -> bool) {
    forall x, y :: p(x) && p(y) ==> le(x, y)
  }

  lemma {:induction false} KeepSnoc<T>(s: seq<T>, x: T, p: T -> bool)
    ensures Keep(s + [x], p) == Keep(s, p) + if p(x) then [x] else []
  {
    if s == [] {
      assert s + [x] == [x] && [x][1..] == [];
    } else {
      assert (s + [x])[1..] == s[1..] + [x];
      KeepSnoc(s[1..], x, p);
    }
  }

  lemma {:induction false} KeepNone<T>(s: seq<T>, p: T -> bool)
    requires forall x <- s :: !p(x)
    ensures Keep(s, p) == []
  {
    if s != [] {
      KeepNone(s[1..], p);
    }
  }

  lemma {:induction false} InsertStable<T(!new)>(x: T, s: seq<T>, le: (T, T) -> bool, p: T -> bool)
    requires TotalPreorder(le) && Sorted(s, le) && OneRank(p, le)
    ensures Keep(Insert(x, s, le), p) == Keep(s, p) + if p(x) then [x] else []
  {
    if s == [] {
      assert [x] + s == [x] && [x][1..] == [];
    } else if le(s[0], x) {
      var t := Insert(x, s[1..], le);
      InsertStable(x, s[1..], le, p);
      assert ([s[0]] + t)[1..] == t;
    } else {
      assert ([x] + s)[1..] == s;
      if p(x) {
        forall y | y in s ensures !p(y) {
          assert le(s[0], y);
        }
        KeepNone(s, p);
      }
    }
  }

  /** Stability: elements of one rank keep their order. */
  lemma {:induction false} SortStable<T(!new)>(s: seq<T>, le: (T, T) -> bool, p: T -> bool)
    requires TotalPreorder(le) && OneRank(p, le)
    ensures Keep(SortBy(s, le), p) == Keep(s, p)
  {
    if s != [] {
      var front, x := s[..|s| - 1], s[|s| - 1];
      SortStable(front, le, p);
      SortSorted(front, le);
      InsertStable(x, SortBy(front, le), le, p);
      assert s == front + [x];
      KeepSnoc(front, x, p);
    }
  }

  lemma LeastIsFirst<T(!new)>(a: seq<T>, b: seq<T>, le: (T, T) -> bool)
    requires Antisymmetric(le) && Sorted(a, le) && Sorted(b, le)
    requires a != [] && b != [] && multiset(a) == multiset(b)
    ensures a[0] == b[0]
  {
    assert a[0] in multiset(b) && b[0] in multiset(a);
    var i :| 0 <= i < |b| && b[i] == a[0];
    var j :| 0 <= j < |a| && a[j] == b[0];
  }

  lemma RestElements<T>(a: seq<T>)
    requires a != []
    ensures multiset(a[1..]) == multiset(a) - multiset{a[0]}
  {
    assert a == [a[0]] + a[1..];
  }

  /** A sorted list is fixed by its elements, if equal ranks are equal elements. */
  lemma {:induction false} SortedUnique<T(!new)>(a: seq<T>, b: seq<T>, le: (T, T) -> bool)
    requires Antisymmetric(le) && Sorted(a, le) && Sorted(b, le)
    requires multiset(a) == multiset(b)
    ensures a == b
    decreases |a|
  {
    assert |a| == |multiset(a)| == |multiset(b)| == |b|;
    if a != [] {
      LeastIsFirst(a, b, le);
      RestElements(a);
      RestElements(b);
      SortedUnique(a[1..], b[1..], le);
      assert a == [a[0]] + a[1..] && b == [b[0]] + b[1..];
    }
  }
}
