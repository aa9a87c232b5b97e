/**
 * Python's stable sort (`list.sort(key=...)` and `sorted(..., key=...)`), modelled as
 * insertion sort by an integer key. Descending order (`reverse=True`) is ascending
 * order of the negated key: Python keeps equal elements in their original order
 * either way.
 */
module Sorting {

  /** Keys never decrease from left to right. */
  ghost predicate SortedBy<T>(s: seq<T>, key: T -> int) {
    forall i, j :: 0 <= i < j < |s| ==> key(s[i]) <= key(s[j])
  }

  /** The elements of `s` whose key is `v`, in their order in `s`. */
  function Keep<T>(s: seq<T>, key: T -> int, v: int): seq<T> {
    if s == [] then []
    else (if key(s[0]) == v then [s[0]] else []) + Keep(s[1..], key, v)
  }

  /** Puts `x` in front of the first element whose key is at least `x`'s. */
  function Insert<T>(x: T, s: seq<T>, key: T -> int): seq<T> {
    if s == [] || key(x) <= key(s[0]) then [x] + s
    else [s[0]] + Insert(x, s[1..], key)
  }

  /** Inserting adds exactly `x`. */
  lemma {:induction false} InsertPermutes<T>(x: T, s: seq<T>, key: T -> int)
    ensures multiset(Insert(x, s, key)) == multiset(s) + multiset{x}
  {
    if s != [] && key(x) > key(s[0]) {
      InsertPermutes(x, s[1..], key);
      assert s == [s[0]] + s[1..];
    }
  }

  /** Inserting into a sorted sequence keeps it sorted. */
  lemma {:induction false} InsertSorted<T>(x: T, s: seq<T>, key: T -> int)
    requires SortedBy(s, key)
    ensures SortedBy(Insert(x, s, key), key)
  {
    if s != [] && key(x) > key(s[0]) {
      var tail := Insert(x, s[1..], key);
      InsertSorted(x, s[1..], key);
      InsertPermutes(x, s[1..], key);
      forall j | 0 <= j < |tail| ensures key(s[0]) <= key(tail[j]) {
        assert tail[j] in multiset(tail);
        assert tail[j] == x || tail[j] in s[1..];
      }
    }
  }

  /** A stable sort by ascending key. */
  function SortBy<T>(s: seq<T>, key: T -> int): (r: seq<T>)
    ensures multiset(r) == multiset(s)
    ensures |r| == |s|
    ensures SortedBy(r, key)
  {
    if s == [] then []
    else
      assert s == [s[0]] + s[1..];
      InsertSorted(s[0], SortBy(s[1..], key), key);
      InsertPermutes(s[0], SortBy(s[1..], key), key);
      Insert(s[0], SortBy(s[1..], key), key)
  }

  /** `Keep` of a sequence with a given first element. */
  lemma KeepCons<T>(y: T, t: seq<T>, key: T -> int, v: int)
    ensures Keep([y] + t, key, v) == (if key(y) == v then [y] else []) + Keep(t, key, v)
  {
    assert ([y] + t)[0] == y && ([y] + t)[1..] == t;
  }

  /** One step of `KeepInsert`: putting `h`, whose key is below `x`'s, in front of both
      sides keeps `x` first among the elements with key `v`. */
  lemma KeepInsertStep<T>(x: T, h: T, t: seq<T>, r: seq<T>, key: T -> int, v: int)
    requires key(x) > key(h)
    requires Keep(r, key, v) == (if key(x) == v then [x] else []) + Keep(t, key, v)
    ensures Keep([h] + r, key, v) == (if key(x) == v then [x] else []) + Keep([h] + t, key, v)
  {
    KeepCons(h, r, key, v);
    KeepCons(h, t, key, v);
  }

  /** Inserting `x` leaves every other key's elements in their old order. */
  lemma {:induction false} KeepInsert<T>(x: T, s: seq<T>, key: T -> int, v: int)
    ensures Keep(Insert(x, s, key), key, v) == (if key(x) == v then [x] else []) + Keep(s, key, v)
  {
    if s == [] || key(x) <= key(s[0]) {
      KeepCons(x, s, key, v);
    } else {
      var tail := Insert(x, s[1..], key);
      KeepInsert(x, s[1..], key, v);
      assert Insert(x, s, key) == [s[0]] + tail;
      assert [s[0]] + s[1..] == s;
      KeepInsertStep(x, s[0], s[1..], tail, key, v);
    }
  }

  /** Stability: for every key value, the sorted sequence lists the elements with that
      key in the same order as the input. */
  lemma {:induction false} SortByStable<T>(s: seq<T>, key: T -> int, v: int)
    ensures Keep(SortBy(s, key), key, v) == Keep(s, key, v)
  {
    if s != [] {
      SortByStable(s[1..], key, v);
      KeepInsert(s[0], SortBy(s[1..], key), key, v);
    }
  }

  /** When every element has key `v`, `Keep` keeps them all. */
  lemma {:induction false} KeepAllSame<T>(s: seq<T>, key: T -> int, v: int)
    requires forall j :: 0 <= j < |s| ==> key(s[j]) == v
    ensures Keep(s, key, v) == s
  {
    if s != [] {
      KeepAllSame(s[1..], key, v);
    }
  }

  /** A sequence whose elements all have the same key is already sorted: the stable sort
      returns it unchanged. */
  lemma SortBySameKey<T>(s: seq<T>, key: T -> int, v: int)
    requires forall j :: 0 <= j < |s| ==> key(s[j]) == v
    ensures SortBy(s, key) == s
  {
    var r := SortBy(s, key);
    forall j | 0 <= j < |r| ensures key(r[j]) == v {
      assert r[j] in multiset(r);
      assert r[j] in s;
      var i :| 0 <= i < |s| && s[i] == r[j];
    }
    SortByStable(s, key, v);
    KeepAllSame(s, key, v);
    KeepAllSame(r, key, v);
  }
}
