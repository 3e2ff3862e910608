/** Vocabulary shared by every component: optional values, clock readings, set sizes, and
    the code-point order on strings that the program's `sorted` calls rely on. */
module Common {

  datatype Option<+T> = None | Some(value: T)

  /** A reading of the clock: a comparable time and its printed form. */
  datatype Instant = Instant(now: int, stamp: string)

  /** An absent or empty text gives way to a default. */
  function OrDefault(text: Option<string>, default: string): string
  {
    if text.Some? && text.value != "" then text.value else default
  }

  lemma {:induction false} SubsetSize<T>(a: set<T>, b: set<T>)
    requires a <= b
    ensures |a| <= |b|
  {
    if x :| x in a {
      SubsetSize(a - {x}, b - {x});
    }
  }

  /** Lexicographic order by code point: how the program compares identifiers. */
  predicate StrLess(a: string, b: string)
  {
    if |b| == 0 then false
    else if |a| == 0 then true
    else a[0] < b[0] || (a[0] == b[0] && StrLess(a[1..], b[1..]))
  }

  lemma {:induction false} StrLessIrreflexive(a: string)
    ensures !StrLess(a, a)
  {
    if a != [] {
      StrLessIrreflexive(a[1..]);
    }
  }

  lemma {:induction false} StrLessTransitive(a: string, b: string, c: string)
    requires StrLess(a, b) && StrLess(b, c)
    ensures StrLess(a, c)
  {
    if a != [] && a[0] == b[0] == c[0] {
      StrLessTransitive(a[1..], b[1..], c[1..]);
    }
  }

  lemma {:induction false} StrLessTotal(a: string, b: string)
    ensures a == b || StrLess(a, b) || StrLess(b, a)
  {
    if a != [] && b != [] && a[0] == b[0] {
      StrLessTotal(a[1..], b[1..]);
      assert a == [a[0]] + a[1..] && b == [b[0]] + b[1..];
    }
  }
}

/** A stable insertion sort over a caller-supplied strict order. */
module Sorting {
  import opened Common

  /** A strict order in which incomparable elements form classes. */
  ghost predicate WeakOrder<T(!new)>(less: (T, T) -> bool)
  {
    && (forall a, b :: less(a, b) ==> !less(b, a))
    && (forall a, b, c {:trigger less(a, b), less(b, c)} :: less(a, c) ==> less(a, b) || less(b, c))
  }

  ghost predicate Sorted<T>(s: seq<T>, less: (T, T) -> bool)
  {
    forall i, j :: 0 <= i < j < |s| ==> !less(s[j], s[i])
  }

  ghost predicate StrictlySorted<T>(s: seq<T>, less: (T, T) -> bool)
  {
    forall i, j :: 0 <= i < j < |s| ==> less(s[i], s[j])
  }

  ghost predicate Distinct<T>(s: seq<T>)
  {
    forall i, j :: 0 <= i < j < |s| ==> s[i] != s[j]
  }

  ghost predicate SameMembers<T>(a: seq<T>, b: seq<T>)
  {
    && (forall i :: 0 <= i < |a| ==> a[i] in b)
    && (forall i :: 0 <= i < |b| ==> b[i] in a)
  }

  /** Puts `x` in front of the first element that is not below it. */
  function Insert<T>(x: T, s: seq<T>, less: (T, T) -> bool): (r: seq<T>)
    ensures multiset(r) == multiset(s) + multiset{x}
  {
    if s == [] || !less(s[0], x) then [x] + s
    else
      var r := [s[0]] + Insert(x, s[1..], less);
      assert s == [s[0]] + s[1..];
      r
  }

  function SortBy<T>(s: seq<T>, less: (T, T) -> bool): (r: seq<T>)
    ensures multiset(r) == multiset(s)
  {
    if s == [] then []
    else
      var r := Insert(s[0], SortBy(s[1..], less), less);
      assert s == [s[0]] + s[1..];
      r
  }

  lemma {:induction false} InsertSorted<T(!new)>(x: T, s: seq<T>, less: (T, T) -> bool)
    requires WeakOrder(less) && Sorted(s, less)
    ensures Sorted(Insert(x, s, less), less)
  {
    if s != [] && less(s[0], x) {
      InsertSorted(x, s[1..], less);
      var r := Insert(x, s[1..], less);
      forall j | 0 <= j < |r| ensures !less(r[j], s[0]) {
        assert r[j] in multiset(s[1..]) + multiset{x};
        assert r[j] == x || r[j] in s[1..];
      }
    }
  }

  lemma {:induction false} SortBySorted<T(!new)>(s: seq<T>, less: (T, T) -> bool)
    requires WeakOrder(less)
    ensures Sorted(SortBy(s, less), less)
  {
    if s != [] {
      SortBySorted(s[1..], less);
      InsertSorted(s[0], SortBy(s[1..], less), less);
    }
  }

  lemma SortByMembers<T>(s: seq<T>, less: (T, T) -> bool)
    ensures |SortBy(s, less)| == |s|
    ensures SameMembers(SortBy(s, less), s)
  {
    var r := SortBy(s, less);
    assert |multiset(r)| == |multiset(s)|;
    forall i | 0 <= i < |r| ensures r[i] in s {
      assert r[i] in multiset(r);
    }
    forall i | 0 <= i < |s| ensures s[i] in r {
      assert s[i] in multiset(s);
    }
  }

  /** Sorting a duplicate-free sequence whose distinct elements are comparable
      leaves a strictly increasing one. */
  lemma SortByStrict<T(!new)>(s: seq<T>, less: (T, T) -> bool)
    requires WeakOrder(less) && Distinct(s)
    requires forall i, j :: 0 <= i < |s| && 0 <= j < |s| && i != j ==> less(s[i], s[j]) || less(s[j], s[i])
    ensures StrictlySorted(SortBy(s, less), less)
  {
    SortBySorted(s, less);
    SortByMembers(s, less);
    var r := SortBy(s, less);
    DistinctByCount(s);
    forall i, j | 0 <= i < j < |r| ensures less(r[i], r[j]) {
      RepeatedCount(r, i, j);
      var k :| 0 <= k < |s| && s[k] == r[i];
      var l :| 0 <= l < |s| && s[l] == r[j];
    }
  }

  lemma RepeatedCount<T>(s: seq<T>, i: nat, j: nat)
    requires i < j < |s|
    ensures s[i] == s[j] ==> multiset(s)[s[i]] >= 2
  {
    assert s == s[..i] + [s[i]] + s[i + 1..];
    assert s[j] == s[i + 1..][j - i - 1];
  }

  lemma {:induction false} DistinctByCount<T>(s: seq<T>)
    requires Distinct(s)
    ensures forall x :: multiset(s)[x] <= 1
  {
    if s != [] {
      DistinctByCount(s[1..]);
      assert s == [s[0]] + s[1..];
      assert s[0] !in s[1..];
    }
  }

  /** A strictly increasing sequence is determined by its set of elements. */
  lemma {:induction false} StrictlySortedUnique<T(!new)>(a: seq<T>, b: seq<T>, less: (T, T) -> bool)
    requires WeakOrder(less)
    requires StrictlySorted(a, less) && StrictlySorted(b, less)
    requires SameMembers(a, b)
    ensures a == b
  {
    if a != [] {
      assert a[0] in b;
      assert b[0] in a;
      var j :| 0 <= j < |b| && b[j] == a[0];
      var i :| 0 <= i < |a| && a[i] == b[0];
      assert a[0] == b[0];
      assert SameMembers(a[1..], b[1..]) by {
        TailMembers(a, b, less);
        TailMembers(b, a, less);
      }
      StrictlySortedUnique(a[1..], b[1..], less);
      assert a == [a[0]] + a[1..] && b == [b[0]] + b[1..];
    }
  }

  lemma TailMembers<T(!new)>(a: seq<T>, b: seq<T>, less: (T, T) -> bool)
    requires WeakOrder(less) && a != [] && b != [] && a[0] == b[0]
    requires StrictlySorted(a, less) && SameMembers(a, b)
    ensures forall i :: 0 <= i < |a[1..]| ==> a[1..][i] in b[1..]
  {
    forall i | 0 <= i < |a[1..]| ensures a[1..][i] in b[1..] {
      var x := a[i + 1];
      assert less(a[0], x) && x in b;
      var k :| 0 <= k < |b| && b[k] == x;
      assert b[1..][k - 1] == x;
    }
  }

  lemma StrLessIsWeakOrder()
    ensures WeakOrder(StrLess)
  {
    forall a, b | StrLess(a, b) ensures !StrLess(b, a) {
      if StrLess(b, a) {
        StrLessTransitive(a, b, a);
        StrLessIrreflexive(a);
      }
    }
    forall a, b, c | StrLess(a, c) ensures StrLess(a, b) || StrLess(b, c) {
      StrLessTotal(a, b);
      if StrLess(b, a) {
        StrLessTransitive(b, a, c);
      }
    }
  }
}
