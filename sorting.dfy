/**
 * Python's `sorted(...)` and `list.sort(...)` with a key (and `reverse=True`),
 * modelled as a stable insertion sort by a "comes no later than" relation
 * `ge`. For `reverse=True` on a key, `ge(a, b)` is `key(a) >= key(b)`; for an
 * ascending sort it is `key(a) <= key(b)`.
 */
module Sorting {

  /** `ge` orders every pair of values and is transitive. */
  ghost predicate TotalPreorder<T(!new)>(ge: (T, T) -> bool) {
    && (forall a, b :: ge(a, b) || ge(b, a))
    && Transitive(ge)
  }

  ghost predicate Transitive<T(!new)>(ge: (T, T) -> bool) {
    forall a, b, c :: ge(a, b) && ge(b, c) ==> ge(a, c)
  }

  /** Every element comes no later (by `ge`) than every element after it. */
  ghost predicate SortedBy<T>(s: seq<T>, ge: (T, T) -> bool) {
    forall i, j :: 0 <= i < j < |s| ==> ge(s[i], s[j])
  }

  /** Inserts `x` after every element of `s` that comes no later than it. */
  function Insert<T>(x: T, s: seq<T>, ge: (T, T) -> bool): (r: seq<T>)
    ensures |r| == |s| + 1
    ensures multiset(r) == multiset(s) + multiset{x}
  {
    if s == [] then [x]
    else if ge(s[0], x) then
      assert s == [s[0]] + s[1..];
      [s[0]] + Insert(x, s[1..], ge)
    else [x] + s
  }

  /** Stable sort of `s` by `ge`: each element is inserted, in list order, after all its equals. */
  function SortBy<T>(s: seq<T>, ge: (T, T) -> bool): (r: seq<T>)
    ensures |r| == |s|
    ensures multiset(r) == multiset(s)
  {
    if s == [] then []
    else
      assert s == s[..|s| - 1] + [s[|s| - 1]];
      Insert(s[|s| - 1], SortBy(s[..|s| - 1], ge), ge)
  }

  /** An element that comes no later than `x` and every element of `s` comes no later than anything in the insertion. */
  lemma {:induction false} InsertBounded<T>(x: T, s: seq<T>, ge: (T, T) -> bool, y: T)
    requires ge(y, x)
    requires forall k :: 0 <= k < |s| ==> ge(y, s[k])
    ensures forall k :: 0 <= k < |Insert(x, s, ge)| ==> ge(y, Insert(x, s, ge)[k])
  {
    if s != [] && ge(s[0], x) {
      InsertBounded(x, s[1..], ge, y);
      var r := Insert(x, s[1..], ge);
      assert Insert(x, s, ge) == [s[0]] + r;
    }
  }

  /** Inserting into a sorted list keeps it sorted. */
  lemma {:induction false} InsertSorted<T(!new)>(x: T, s: seq<T>, ge: (T, T) -> bool)
    requires TotalPreorder(ge)
    requires SortedBy(s, ge)
    ensures SortedBy(Insert(x, s, ge), ge)
  {
    if s != [] {
      if ge(s[0], x) {
        var tail := s[1..];
        assert SortedBy(tail, ge);
        InsertSorted(x, tail, ge);
        InsertBounded(x, tail, ge, s[0]);
        var r := Insert(x, tail, ge);
        assert Insert(x, s, ge) == [s[0]] + r;
      } else {
        assert ge(x, s[0]);
      }
    }
  }

  /** `SortBy` produces a list ordered by `ge`. */
  lemma {:induction false} SortBySorted<T(!new)>(s: seq<T>, ge: (T, T) -> bool)
    requires TotalPreorder(ge)
    ensures SortedBy(SortBy(s, ge), ge)
  {
    if s != [] {
      SortBySorted(s[..|s| - 1], ge);
      InsertSorted(s[|s| - 1], SortBy(s[..|s| - 1], ge), ge);
    }
  }

  /** `a` and `b` tie under `ge`: each comes no later than the other. */
  predicate Tied<T>(ge: (T, T) -> bool, a: T, b: T) {
    ge(a, b) && ge(b, a)
  }

  /** The elements of `s` that tie with `z`, in list order. */
  function TiedWith<T>(s: seq<T>, z: T, ge: (T, T) -> bool): (r: seq<T>)
    ensures |r| <= |s|
    ensures forall x :: x in r ==> x in s && Tied(ge, x, z)
  {
    if s == [] then []
    else (if Tied(ge, s[0], z) then [s[0]] else []) + TiedWith(s[1..], z, ge)
  }

  lemma {:induction false} TiedWithAppend<T>(a: seq<T>, b: seq<T>, z: T, ge: (T, T) -> bool)
    ensures TiedWith(a + b, z, ge) == TiedWith(a, z, ge) + TiedWith(b, z, ge)
  {
    if a == [] {
      assert a + b == b;
    } else {
      assert (a + b)[1..] == a[1..] + b;
      TiedWithAppend(a[1..], b, z, ge);
    }
  }

  lemma {:induction false} TiedWithNone<T>(s: seq<T>, z: T, ge: (T, T) -> bool)
    requires forall k :: 0 <= k < |s| ==> !Tied(ge, s[k], z)
    ensures TiedWith(s, z, ge) == []
  {
    if s != [] {
      TiedWithNone(s[1..], z, ge);
    }
  }

  lemma TiedWithSnoc<T>(s: seq<T>, z: T, ge: (T, T) -> bool)
    requires s != []
    ensures TiedWith(s, z, ge)
            == TiedWith(s[..|s| - 1], z, ge) + (if Tied(ge, s[|s| - 1], z) then [s[|s| - 1]] else [])
  {
    var init, last := s[..|s| - 1], s[|s| - 1];
    assert s == init + [last];
    TiedWithAppend(init, [last], z, ge);
    assert TiedWith([last], z, ge) == (if Tied(ge, last, z) then [last] else []);
  }

  /** Inserting into a sorted list puts `x` after every element it ties with. */
  lemma {:induction false} InsertStable<T(!new)>(x: T, s: seq<T>, ge: (T, T) -> bool, z: T)
    requires Transitive(ge)
    requires SortedBy(s, ge)
    ensures TiedWith(Insert(x, s, ge), z, ge) == TiedWith(s, z, ge) + (if Tied(ge, x, z) then [x] else [])
    decreases |s|, 1
  {
    if s == [] {
    } else if ge(s[0], x) {
      InsertStableAfter(x, s, ge, z);
    } else {
      assert Insert(x, s, ge) == [x] + s;
      TiedWithCons(x, s, z, ge);
      if Tied(ge, x, z) {
        NoneTiedAfter(x, s, ge, z);
      }
    }
  }

  /** The step of `InsertStable` where `x` goes after the head of `s`. */
  lemma {:induction false} InsertStableAfter<T(!new)>(x: T, s: seq<T>, ge: (T, T) -> bool, z: T)
    requires Transitive(ge)
    requires SortedBy(s, ge)
    requires s != [] && ge(s[0], x)
    ensures TiedWith(Insert(x, s, ge), z, ge) == TiedWith(s, z, ge) + (if Tied(ge, x, z) then [x] else [])
    decreases |s|, 0
  {
    var h, t := s[0], s[1..];
    var inserted := Insert(x, t, ge);
    var head := if Tied(ge, h, z) then [h] else [];
    var last := if Tied(ge, x, z) then [x] else [];
    assert SortedBy(t, ge);
    InsertStable(x, t, ge, z);
    TiedWithCons(h, inserted, z, ge);
    calc {
      TiedWith(Insert(x, s, ge), z, ge);
      TiedWith([h] + inserted, z, ge);
      head + TiedWith(inserted, z, ge);
      head + (TiedWith(t, z, ge) + last);
      (head + TiedWith(t, z, ge)) + last;
      TiedWith(s, z, ge) + last;
    }
  }

  lemma TiedWithCons<T>(h: T, t: seq<T>, z: T, ge: (T, T) -> bool)
    ensures TiedWith([h] + t, z, ge) == (if Tied(ge, h, z) then [h] else []) + TiedWith(t, z, ge)
  {
    assert ([h] + t)[1..] == t;
  }

  /** Nothing in a sorted list that starts strictly after `x` ties with a `z` that ties with `x`. */
  lemma NoneTiedAfter<T(!new)>(x: T, s: seq<T>, ge: (T, T) -> bool, z: T)
    requires Transitive(ge)
    requires SortedBy(s, ge)
    requires s != [] && !ge(s[0], x) && Tied(ge, x, z)
    ensures TiedWith(s, z, ge) == []
  {
    forall k | 0 <= k < |s| ensures !Tied(ge, s[k], z) {
      if k > 0 {
        assert ge(s[0], s[k]);
      }
    }
    TiedWithNone(s, z, ge);
  }

  /**
   * `SortBy` is stable: the elements tying with any `z` come out in the order
   * they went in, as Python's `sorted` and `list.sort` (also with
   * `reverse=True`) guarantee.
   */
  lemma {:induction false} SortByStable<T(!new)>(s: seq<T>, ge: (T, T) -> bool, z: T)
    requires TotalPreorder(ge)
    ensures TiedWith(SortBy(s, ge), z, ge) == TiedWith(s, z, ge)
  {
    if s != [] {
      var init, last := s[..|s| - 1], s[|s| - 1];
      var sorted := SortBy(init, ge);
      assert SortBy(s, ge) == Insert(last, sorted, ge);
      TiedWithSnoc(s, z, ge);
      SortByStable(init, ge, z);
      SortBySorted(init, ge);
      InsertStable(last, sorted, ge, z);
    }
  }

  /** The first element tying with `z` sits at an index before which nothing ties with `z`. */
  lemma {:induction false} FirstTied<T>(s: seq<T>, z: T, ge: (T, T) -> bool) returns (k: nat)
    requires TiedWith(s, z, ge) != []
    ensures k < |s| && s[k] == TiedWith(s, z, ge)[0] && Tied(ge, s[k], z)
    ensures forall j :: 0 <= j < k ==> !Tied(ge, s[j], z)
  {
    if Tied(ge, s[0], z) {
      k := 0;
    } else {
      var k' := FirstTied(s[1..], z, ge);
      k := k' + 1;
    }
  }

  /** The ascending order on reals. */
  function AtMost(a: real, b: real): bool {
    a <= b
  }

  /** `sorted(s)` for a list of numbers. */
  function SortAsc(s: seq<real>): (r: seq<real>)
    ensures |r| == |s|
    ensures multiset(r) == multiset(s)
  {
    SortBy(s, AtMost)
  }

  /** `sorted(s)` holds exactly the elements of `s`. */
  lemma SortAscMembers(s: seq<real>)
    ensures forall x :: x in SortAsc(s) <==> x in s
  {
    var r := SortAsc(s);
    forall x ensures x in r <==> x in s {
      assert x in r <==> x in multiset(r);
      assert x in s <==> x in multiset(s);
    }
  }

  /** `sorted(s)` is in ascending order. */
  lemma SortAscOrdered(s: seq<real>)
    ensures forall i, j :: 0 <= i < j < |s| ==> SortAsc(s)[i] <= SortAsc(s)[j]
  {
    SortBySorted(s, AtMost);
  }

  /** A list whose entries are pairwise different holds each value at most once. */
  lemma {:induction false} OccursOnce<T>(s: seq<T>, x: T)
    requires forall i, j :: 0 <= i < j < |s| ==> s[i] != s[j]
    ensures multiset(s)[x] <= 1
  {
    if s != [] {
      OccursOnce(s[1..], x);
      assert s == [s[0]] + s[1..];
      if s[0] == x {
        assert x !in s[1..];
      }
    }
  }
}
