/** Python's `list.sort(key=..., reverse=True)` as a stable insertion sort: elements come out
    in non-increasing key order, and elements with equal keys keep their input order. */
module Sorting {

  predicate SortedDesc<T>(s: seq<T>, key: T -> real)
  {
    forall i, j :: 0 <= i < j < |s| ==> key(s[i]) >= key(s[j])
  }

  /** Inserts `x` after every leading element whose key is at least `x`'s. */
  function Insert<T>(s: seq<T>, x: T, key: T -> real): (r: seq<T>)
    ensures |r| == |s| + 1
    decreases |s|
  {
    if s == [] then [x]
    else if key(s[0]) >= key(x) then [s[0]] + Insert(s[1..], x, key)
    else [x] + s
  }

  lemma PrependSorted<T>(h: T, t: seq<T>, key: T -> real)
    requires SortedDesc(t, key)
    requires t == [] || key(h) >= key(t[0])
    ensures SortedDesc([h] + t, key)
  {
    assert forall k :: 1 <= k < |[h] + t| ==> ([h] + t)[k] == t[k - 1];
  }

  lemma SortedTail<T>(s: seq<T>, key: T -> real)
    requires s != [] && SortedDesc(s, key)
    ensures SortedDesc(s[1..], key)
    ensures forall k :: 0 <= k < |s| ==> key(s[k]) <= key(s[0])
  {
    assert forall k :: 0 <= k < |s[1..]| ==> s[1..][k] == s[k + 1];
  }

  /** The first element after an insertion is the old first element or the inserted one. */
  lemma InsertHead<T>(s: seq<T>, x: T, key: T -> real)
    ensures Insert(s, x, key)[0] == x || (s != [] && Insert(s, x, key)[0] == s[0])
  {
  }

  /** Inserting into a sorted sequence keeps it sorted. */
  lemma {:induction false} InsertSorted<T>(s: seq<T>, x: T, key: T -> real)
    requires SortedDesc(s, key)
    ensures SortedDesc(Insert(s, x, key), key)
    decreases |s|
  {
    if s == [] {
    } else if key(s[0]) >= key(x) {
      var tail := s[1..];
      SortedTail(s, key);
      InsertSorted(tail, x, key);
      InsertHead(tail, x, key);
      PrependSorted(s[0], Insert(tail, x, key), key);
    } else {
      PrependSorted(x, s, key);
    }
  }

  /** Inserting adds exactly the one element. */
  lemma {:induction false} InsertMultiset<T>(s: seq<T>, x: T, key: T -> real)
    ensures multiset(Insert(s, x, key)) == multiset(s) + multiset{x}
    decreases |s|
  {
    if s != [] {
      assert s == [s[0]] + s[1..];
      if key(s[0]) >= key(x) {
        InsertMultiset(s[1..], x, key);
      }
    }
  }

  /** The stable descending sort: each next input element is inserted after the equal-keyed
      elements already placed. */
  function SortDesc<T>(s: seq<T>, key: T -> real): (r: seq<T>)
    ensures SortedDesc(r, key)
    ensures multiset(r) == multiset(s)
    ensures |r| == |s|
    decreases |s|
  {
    if s == [] then []
    else
      var init, last := s[..|s| - 1], s[|s| - 1];
      assert s == init + [last];
      var sorted := SortDesc(init, key);
      InsertSorted(sorted, last, key);
      InsertMultiset(sorted, last, key);
      Insert(sorted, last, key)
  }

  /** The elements of `s` whose key is `v`, in their order in `s`. */
  function WithKey<T>(s: seq<T>, key: T -> real, v: real): seq<T>
    decreases |s|
  {
    if s == [] then []
    else (if key(s[0]) == v then [s[0]] else []) + WithKey(s[1..], key, v)
  }

  lemma {:induction false} WithKeyConcat<T>(a: seq<T>, b: seq<T>, key: T -> real, v: real)
    ensures WithKey(a + b, key, v) == WithKey(a, key, v) + WithKey(b, key, v)
    decreases |a|
  {
    if a != [] {
      assert (a + b)[1..] == a[1..] + b;
      WithKeyConcat(a[1..], b, key, v);
    } else {
      assert a + b == b;
    }
  }

  lemma {:induction false} WithKeyNone<T>(s: seq<T>, key: T -> real, v: real)
    requires forall k :: 0 <= k < |s| ==> key(s[k]) < v
    ensures WithKey(s, key, v) == []
    decreases |s|
  {
    if s != [] {
      WithKeyNone(s[1..], key, v);
    }
  }

  lemma {:induction false} InsertWithKey<T>(s: seq<T>, x: T, key: T -> real, v: real)
    requires SortedDesc(s, key)
    ensures WithKey(Insert(s, x, key), key, v)
         == WithKey(s, key, v) + (if key(x) == v then [x] else [])
    decreases |s|
  {
    var extra := if key(x) == v then [x] else [];
    if s == [] {
      assert WithKey([x], key, v) == extra + WithKey([], key, v);
    } else if key(s[0]) >= key(x) {
      SortedTail(s, key);
      InsertWithKey(s[1..], x, key, v);
      var head := if key(s[0]) == v then [s[0]] else [];
      var t := Insert(s[1..], x, key);
      assert Insert(s, x, key) == [s[0]] + t;
      assert ([s[0]] + t)[1..] == t;
      assert WithKey([s[0]] + t, key, v) == head + WithKey(t, key, v);
      assert WithKey(s, key, v) == head + WithKey(s[1..], key, v);
    } else {
      assert Insert(s, x, key) == [x] + s;
      assert ([x] + s)[1..] == s;
      SortedTail(s, key);
      if key(x) == v {
        WithKeyNone(s, key, v);
      }
      assert WithKey([x] + s, key, v) == extra + WithKey(s, key, v);
    }
  }

  lemma {:induction false} WithKeySnoc<T>(s: seq<T>, x: T, key: T -> real, v: real)
    ensures WithKey(s + [x], key, v) == WithKey(s, key, v) + (if key(x) == v then [x] else [])
  {
    WithKeyConcat(s, [x], key, v);
    assert WithKey([x], key, v) == (if key(x) == v then [x] else []) + WithKey([], key, v);
  }

  /** Stability: for every key value, the equal-keyed elements appear in the sorted output in
      exactly their input order. */
  lemma {:induction false} SortDescStable<T>(s: seq<T>, key: T -> real, v: real)
    ensures WithKey(SortDesc(s, key), key, v) == WithKey(s, key, v)
    decreases |s|
  {
    if s != [] {
      var init, last := s[..|s| - 1], s[|s| - 1];
      assert s == init + [last];
      SortDescStable(init, key, v);
      InsertWithKey(SortDesc(init, key), last, key, v);
      WithKeySnoc(init, last, key, v);
    }
  }

  /** In a sorted concatenation, everything in the back part has a key at most that of
      everything in the front part. */
  lemma SortedSplit<T>(top: seq<T>, rest: seq<T>, key: T -> real)
    requires SortedDesc(top + rest, key)
    ensures forall p, q :: p in rest && q in top ==> key(p) <= key(q)
  {
    var s := top + rest;
    forall p, q | p in rest && q in top
      ensures key(p) <= key(q)
    {
      var j :| 0 <= j < |rest| && rest[j] == p;
      var i :| 0 <= i < |top| && top[i] == q;
      assert s[i] == q && s[|top| + j] == p;
    }
  }

  /** A prefix of a sorted sequence holds its best elements: everything left out has a key at
      most that of everything kept. */
  lemma PrefixIsBest<T>(s: seq<T>, key: T -> real, m: nat)
    requires SortedDesc(s, key) && m <= |s|
    ensures multiset(s[..m]) <= multiset(s)
    ensures SortedDesc(s[..m], key)
    ensures forall p, q :: p in multiset(s) - multiset(s[..m]) && q in s[..m] ==> key(p) <= key(q)
  {
    var top, rest := s[..m], s[m..];
    assert s == top + rest;
    assert multiset(s) == multiset(top) + multiset(rest);
    SortedSplit(top, rest, key);
    forall p | p in multiset(s) - multiset(top)
      ensures p in rest
    {
      assert p in multiset(rest);
    }
  }
}
